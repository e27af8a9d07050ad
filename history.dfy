/** The persisted valuation history (context/HistoryContext.tsx): completed batch
    valuations, newest first, kept for 7 days across reloads. */
module HistoryContext {
  import opened Wrappers
  import opened Types
  import opened Storage
  import opened Seqs
  import opened Text

  const HistoryKey: string := "domainValuationHistory"
  /** The retention window, 7 days in milliseconds. */
  const WeekMs: int := 7 * 24 * 60 * 60 * 1000

  datatype HistoryItem = HistoryItem(id: string, timestamp: int, batchResult: BatchValuationResult)

  /** The load filter: no older than 7 days. */
  predicate IsRecent(item: HistoryItem, now: int) {
    item.timestamp >= now - WeekMs
  }

  function KeepRecent(items: seq<HistoryItem>, now: int): (r: seq<HistoryItem>)
    ensures forall x :: x in r <==> x in items && IsRecent(x, now)
  {
    Filter(items, (x: HistoryItem) => IsRecent(x, now))
  }

  /** The initial list: whatever is stored, parsed and filtered; never an error. */
  function LoadHistory(read: Result<Option<string>, string>, codec: Codec<HistoryItem>, now: int): (r: seq<HistoryItem>)
    ensures read.Failure? || read.value.None? ==> r == []
    ensures forall x :: x in r ==> IsRecent(x, now)
  {
    KeepRecent(ReadCollection(read, codec), now)
  }

  /** The 7-day boundary is inclusive. */
  lemma RecentBoundary(item: HistoryItem, now: int)
    ensures item.timestamp == now - WeekMs ==> IsRecent(item, now)
    ensures item.timestamp == now - WeekMs - 1 ==> !IsRecent(item, now)
  {
  }

  /** Loading keeps the stored order. */
  lemma LoadKeepsOrder(xs: seq<HistoryItem>, ys: seq<HistoryItem>, now: int)
    ensures KeepRecent(xs + ys, now) == KeepRecent(xs, now) + KeepRecent(ys, now)
  {
    FilterAppend(xs, ys, (x: HistoryItem) => IsRecent(x, now));
  }

  /** Writing the history and loading it again within 7 days gives the same list. */
  lemma ReloadRoundTrip(items: seq<HistoryItem>, codec: Codec<HistoryItem>, now: int)
    requires Faithful(codec)
    requires forall x :: x in items ==> IsRecent(x, now)
    ensures LoadHistory(Success(Some(codec.encode(items))), codec, now) == items
  {
    ReadWritten(codec, items);
    FilterAll(items, (x: HistoryItem) => IsRecent(x, now));
  }

  /** The entry recorded for a batch. `addBatchToHistory` reads the clock twice: the id is
      the decimal text of the first reading (`idNow`), the timestamp the second (`stampNow`).
      The new entry survives a reload for the next 7 days. */
  function NewHistoryItem(batch: BatchValuationResult, idNow: int, stampNow: int): (r: HistoryItem)
    ensures r.timestamp == stampNow && r.batchResult == batch
    ensures IsRecent(r, stampNow) && IsRecent(r, stampNow + WeekMs) && !IsRecent(r, stampNow + WeekMs + 1)
  {
    HistoryItem(IntToString(idNow), stampNow, batch)
  }

  /** The list `addBatchToHistory` produces: the new entry in front of the unchanged list. */
  function Prepend(items: seq<HistoryItem>, batch: BatchValuationResult, idNow: int, stampNow: int): (r: seq<HistoryItem>)
    ensures |r| == |items| + 1 && r[1..] == items
    ensures r[0].timestamp == stampNow && r[0].batchResult == batch
  {
    [NewHistoryItem(batch, idNow, stampNow)] + items
  }

  /** An entry's id reads back as the first clock reading, hence as its timestamp exactly
      when both readings fall in the same millisecond. */
  lemma IdReadsBack(batch: BatchValuationResult, idNow: int, stampNow: int)
    ensures var id := NewHistoryItem(batch, idNow, stampNow).id;
            id != [] && (id[0] == '-' || IsDigit(id[0]))
            && (forall i :: 0 < i < |id| ==> IsDigit(id[i]))
            && ParseInt(id) == idNow
            && (ParseInt(id) == NewHistoryItem(batch, idNow, stampNow).timestamp <==> idNow == stampNow)
  {
    IntToStringRoundTrip(idNow);
  }

  /** Ids tell entries apart exactly when their first readings differ: two batches recorded
      in the same millisecond share an id. */
  lemma IdsCollideIffSameMillisecond(a: BatchValuationResult, b: BatchValuationResult,
                                     ia: int, sa: int, ib: int, sb: int)
    ensures NewHistoryItem(a, ia, sa).id == NewHistoryItem(b, ib, sb).id <==> ia == ib
  {
    IntToStringInjective(ia, ib);
  }

  /** Adding A, then B, then C leaves C, B, A in front of what was there. */
  lemma NewestFirst(items: seq<HistoryItem>, a: BatchValuationResult, b: BatchValuationResult,
                    c: BatchValuationResult, ia: int, sa: int, ib: int, sb: int, ic: int, sc: int)
    ensures var r := Prepend(Prepend(Prepend(items, a, ia, sa), b, ib, sb), c, ic, sc);
            |r| == |items| + 3
            && r[..3] == [NewHistoryItem(c, ic, sc), NewHistoryItem(b, ib, sb), NewHistoryItem(a, ia, sa)]
            && r[3..] == items
  {
    var r := Prepend(Prepend(Prepend(items, a, ia, sa), b, ib, sb), c, ic, sc);
    assert r == [NewHistoryItem(c, ic, sc), NewHistoryItem(b, ib, sb), NewHistoryItem(a, ia, sa)] + items;
  }

  /** The provider's state cell, written to `localStorage` after each change. */
  class HistoryStore {
    var items: seq<HistoryItem>
    const backing: LocalStorage
    const codec: Codec<HistoryItem>

    ghost predicate Persisted()
      reads this, backing
    {
      backing.available ==> HistoryKey in backing.data && backing.data[HistoryKey] == codec.encode(items)
    }

    /** Mount: load once with the expiry pass, then write the filtered list back. */
    constructor Load(backing: LocalStorage, codec: Codec<HistoryItem>, now: int)
      modifies backing
      ensures this.backing == backing && this.codec == codec
      ensures items == LoadHistory(old(backing.GetItem(HistoryKey)), codec, now)
      ensures backing.data == Written(backing.available, old(backing.data), HistoryKey, codec.encode(items))
      ensures Persisted()
    {
      this.backing := backing;
      this.codec := codec;
      items := LoadHistory(backing.GetItem(HistoryKey), codec, now);
      new;
      backing.SetItem(HistoryKey, codec.encode(items));
    }

    /** `addBatchToHistory`, given the two clock readings it takes. */
    method AddBatchToHistory(batch: BatchValuationResult, idNow: int, stampNow: int)
      modifies this, backing
      ensures items == Prepend(old(items), batch, idNow, stampNow)
      ensures backing.data == Written(backing.available, old(backing.data), HistoryKey, codec.encode(items))
      ensures Persisted()
    {
      var newHistoryItem := NewHistoryItem(batch, idNow, stampNow);
      items := [newHistoryItem] + items;
      backing.SetItem(HistoryKey, codec.encode(items));
    }
  }
}
