/** The valuation-history screen (pages/HistoryPage.tsx): the recorded batches grouped under
    the calendar day they were made, days in the order they first occur in the history and
    entries of a day in history order. The date formatter is a parameter `dayKey` from a
    timestamp to the day's text. */
module HistoryPage {
  import opened Types
  import opened Text
  import opened Seqs
  import opened HistoryContext

  /** The entries filed under day `k`, in history order. */
  function Group(history: seq<HistoryItem>, dayKey: int -> string, k: string): (g: seq<HistoryItem>)
    ensures forall x :: x in g <==> x in history && dayKey(x.timestamp) == k
  {
    Filter(history, (x: HistoryItem) => dayKey(x.timestamp) == k)
  }

  /** The days, each once, in order of first occurrence (`Object.keys` of the grouping). */
  function DayKeys(history: seq<HistoryItem>, dayKey: int -> string): (ks: seq<string>)
    ensures forall k :: k in ks ==> exists x :: x in history && dayKey(x.timestamp) == k
  {
    if history == [] then []
    else
      var init := history[..|history| - 1];
      var ks := DayKeys(init, dayKey);
      var k := dayKey(history[|history| - 1].timestamp);
      assert forall x :: x in init ==> x in history;
      if k in ks then ks else ks + [k]
  }

  /** Every day of the history has a heading. */
  lemma {:induction false} EveryDayListed(history: seq<HistoryItem>, dayKey: int -> string, x: HistoryItem)
    requires x in history
    ensures dayKey(x.timestamp) in DayKeys(history, dayKey)
  {
    var init := history[..|history| - 1];
    if x != history[|history| - 1] {
      assert x in init by {
        var i :| 0 <= i < |history| && history[i] == x;
        assert i < |history| - 1;
        assert init[i] == x;
      }
      EveryDayListed(init, dayKey, x);
    }
  }

  /** No heading appears twice. */
  lemma {:induction false} DayKeysDistinct(history: seq<HistoryItem>, dayKey: int -> string)
    ensures Distinct(DayKeys(history, dayKey))
  {
    if history != [] {
      DayKeysDistinct(history[..|history| - 1], dayKey);
    }
  }

  /** Each entry sits in exactly one group: the one of its own day. */
  lemma InExactlyOneGroup(history: seq<HistoryItem>, dayKey: int -> string, x: HistoryItem, k: string)
    requires x in history
    ensures x in Group(history, dayKey, k) <==> k == dayKey(x.timestamp)
  {
  }

  /** A day without a heading has no entries. */
  lemma UnlistedDayIsEmpty(history: seq<HistoryItem>, dayKey: int -> string, k: string)
    requires k !in DayKeys(history, dayKey)
    ensures Group(history, dayKey, k) == []
  {
    forall x | x in history ensures dayKey(x.timestamp) != k {
      EveryDayListed(history, dayKey, x);
    }
    FilterNone(history, (x: HistoryItem) => dayKey(x.timestamp) == k);
  }

  /** One more entry: its day's group grows by it at the end, the others stay. */
  lemma GroupSnoc(history: seq<HistoryItem>, item: HistoryItem, dayKey: int -> string, k: string)
    ensures Group(history + [item], dayKey, k)
            == Group(history, dayKey, k) + (if dayKey(item.timestamp) == k then [item] else [])
  {
    FilterAppend(history, [item], (x: HistoryItem) => dayKey(x.timestamp) == k);
    assert [item][1..] == [];
  }

  /** One more entry: its day gets a heading at the end unless it has one. */
  lemma DayKeysSnoc(history: seq<HistoryItem>, item: HistoryItem, dayKey: int -> string)
    ensures var ks := DayKeys(history, dayKey);
            var k := dayKey(item.timestamp);
            DayKeys(history + [item], dayKey) == if k in ks then ks else ks + [k]
  {
    assert (history + [item])[..|history|] == history;
  }

  /** The grouping built so far, for the entries `seen`. */
  ghost predicate GroupedSoFar(seen: seq<HistoryItem>, dayKey: int -> string,
                               keys: seq<string>, groups: map<string, seq<HistoryItem>>)
  {
    && keys == DayKeys(seen, dayKey)
    && (forall k :: k in groups <==> k in keys)
    && (forall k :: k in groups ==> groups[k] == Group(seen, dayKey, k))
  }

  /** One push onto the entry's day, opening the day first if it is new, keeps the grouping
      right for one more entry. */
  lemma PushKeepsGrouping(seen: seq<HistoryItem>, item: HistoryItem, dayKey: int -> string,
                          keys: seq<string>, groups: map<string, seq<HistoryItem>>)
    requires GroupedSoFar(seen, dayKey, keys, groups)
    ensures var date := dayKey(item.timestamp);
            var started := if date in groups then groups else groups[date := []];
            GroupedSoFar(seen + [item], dayKey,
                         if date in groups then keys else keys + [date],
                         started[date := started[date] + [item]])
  {
    var date := dayKey(item.timestamp);
    DayKeysSnoc(seen, item, dayKey);
    var newKeys := if date in groups then keys else keys + [date];
    assert newKeys == DayKeys(seen + [item], dayKey);
    var started: map<string, seq<HistoryItem>>;
    if date in groups {
      started := groups;
    } else {
      UnlistedDayIsEmpty(seen, dayKey, date);
      started := groups[date := []];
      assert forall k :: k in started ==> started[k] == Group(seen, dayKey, k);
    }
    var pushed := started[date := started[date] + [item]];
    assert forall k :: k in pushed <==> k in newKeys;
    PushedGroups(seen, item, dayKey, started);
    assert GroupedSoFar(seen + [item], dayKey, newKeys, pushed);
  }

  /** The per-day lists after the push, once the entry's day has a list. */
  lemma PushedGroups(seen: seq<HistoryItem>, item: HistoryItem, dayKey: int -> string,
                     started: map<string, seq<HistoryItem>>)
    requires dayKey(item.timestamp) in started
    requires forall k :: k in started ==> started[k] == Group(seen, dayKey, k)
    ensures var date := dayKey(item.timestamp);
            var pushed := started[date := started[date] + [item]];
            forall k :: k in pushed ==> pushed[k] == Group(seen + [item], dayKey, k)
  {
    var date := dayKey(item.timestamp);
    var pushed := started[date := started[date] + [item]];
    forall k | k in pushed ensures pushed[k] == Group(seen + [item], dayKey, k) {
      GroupSnoc(seen, item, dayKey, k);
    }
  }

  /** The `reduce` of `groupedHistory`: one pass pushing each entry onto its day's list,
      opening the list the first time the day is seen. */
  method GroupHistory(history: seq<HistoryItem>, dayKey: int -> string)
    returns (keys: seq<string>, groups: map<string, seq<HistoryItem>>)
    ensures keys == DayKeys(history, dayKey)
    ensures forall k :: k in groups <==> k in keys
    ensures forall k :: k in groups ==> groups[k] == Group(history, dayKey, k)
  {
    keys := [];
    groups := map[];
    var i := 0;
    while i < |history|
      invariant 0 <= i <= |history|
      invariant GroupedSoFar(history[..i], dayKey, keys, groups)
    {
      var item := history[i];
      var date := dayKey(item.timestamp);
      assert history[..i + 1] == history[..i] + [item];
      PushKeepsGrouping(history[..i], item, dayKey, keys, groups);
      if date !in groups {
        groups := groups[date := []];
        keys := keys + [date];
      }
      groups := groups[date := groups[date] + [item]];
      i := i + 1;
    }
    assert history[..|history|] == history;
  }

  /** The empty state replaces the list exactly when there is no history. */
  predicate ShowsNoHistory(history: seq<HistoryItem>) {
    |history| == 0
  }

  lemma NoHistoryNoDays(history: seq<HistoryItem>, dayKey: int -> string)
    ensures ShowsNoHistory(history) <==> DayKeys(history, dayKey) == []
  {
    if history != [] {
      EveryDayListed(history, dayKey, history[0]);
    }
  }

  /** An entry's caption: the number of domains, then "Domain", with an "s" only above one. */
  function CountLabel(n: nat): (s: string)
    ensures |s| == |IntToString(n)| + |" Domain"| + (if n > 1 then 1 else 0) + |" Valued"|
    ensures s[..|IntToString(n)|] == IntToString(n)
    ensures s[|IntToString(n)|..|IntToString(n)| + 7] == " Domain"
    ensures s[|IntToString(n)| + 7] == 's' <==> n > 1
    ensures s[|s| - 7..] == " Valued"
  {
    IntToString(n) + " Domain" + (if n > 1 then "s" else "") + " Valued"
  }

  /** The caption reads back as the number of domains in the batch. */
  lemma CountLabelReadsBack(item: HistoryItem)
    ensures var n := |item.batchResult.valuations|;
            var digits := CountLabel(n)[..|IntToString(n)|];
            digits != [] && (digits[0] == '-' || IsDigit(digits[0]))
            && (forall i :: 0 < i < |digits| ==> IsDigit(digits[i]))
            && ParseInt(digits) == n
  {
    IntToStringRoundTrip(|item.batchResult.valuations|);
  }
}
