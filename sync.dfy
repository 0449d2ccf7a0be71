/**
 * The synchronisation of scraped records with the store (`save_to_supabase`):
 * each record with a positive price is compared with the price stored under
 * its id, written back, and, when it is new or its price moved, logged in the
 * price history and announced by a LINE push message.
 *
 * The Supabase tables `properties` and `price_history` become a map and an
 * append-only sequence; the LINE Messaging API becomes an append-only
 * sequence of the notifications pushed.
 */
module Sync {
  import opened Wrappers
  import opened Listing
  import Price

  /** A drop of at least this many yen is announced as a major markdown (大幅値下げ). */
  const MajorMarkdownThreshold: int := 100000

  /** How a scraped price relates to the stored one. */
  datatype Change =
    | New                                                   // no row under the id
    | Unchanged                                             // same price as stored
    | MajorMarkdown(previous: int, current: int, diff: int) // diff = previous - current >= threshold
    | PriceChanged(previous: int, current: int)             // any other difference, rises included

  /** The content of a push message: its kind and the values it shows. */
  datatype Notification =
    | NewListing(title: string, price: int, url: string)
    | MarkdownNotice(title: string, previous: int, current: int, diff: int, url: string)
    | PriceChangeNotice(title: string, previous: int, current: int)

  /** A row of `price_history`; its `changed_at` timestamp is left out. */
  datatype HistoryEntry = HistoryEntry(propertyId: string, price: int)

  /** The state the sync reads and writes. */
  datatype Tables = Tables(properties: map<string, Record>, history: seq<HistoryEntry>, pushes: seq<Notification>)

  /** The four-way comparison of the stored price (if any) with the scraped one. */
  function Classify(prior: Option<int>, price: int): (c: Change)
    ensures c == New <==> prior.None?
    ensures c == Unchanged <==> prior == Some(price)
    ensures c.MajorMarkdown? <==> prior.Some? && prior.value - price >= MajorMarkdownThreshold
    ensures c.PriceChanged? <==> prior.Some? && prior.value != price && prior.value - price < MajorMarkdownThreshold
    ensures c.MajorMarkdown? ==> c == MajorMarkdown(prior.value, price, prior.value - price)
    ensures c.PriceChanged? ==> c == PriceChanged(prior.value, price)
  {
    match prior
    case None => New
    case Some(previous) =>
      var diff := previous - price;
      if previous != price then
        if diff >= MajorMarkdownThreshold then MajorMarkdown(previous, price, diff)
        else PriceChanged(previous, price)
      else Unchanged
  }

  /** `select("price").eq("id", id)`: the stored price, if a row exists. */
  function PriorPrice(t: Tables, id: string): (prior: Option<int>)
    ensures prior.None? <==> id !in t.properties
    ensures prior.Some? ==> prior.value == t.properties[id].price
  {
    if id in t.properties then Some(t.properties[id].price) else None
  }

  /** `upsert(data)`: the row under the record's id becomes the record. */
  function Upsert(t: Tables, r: Record): (t': Tables)
    ensures t'.properties.Keys == t.properties.Keys + {r.id} && t'.properties[r.id] == r
    ensures forall id :: id in t.properties && id != r.id ==> t'.properties[id] == t.properties[id]
    ensures t'.history == t.history && t'.pushes == t.pushes
  {
    t.(properties := t.properties[r.id := r])
  }

  /** `send_line_push`: a no-op when the LINE credentials are missing. */
  function Push(t: Tables, n: Notification, lineConfigured: bool): (t': Tables)
    ensures t'.properties == t.properties && t'.history == t.history
    ensures t'.pushes == if lineConfigured then t.pushes + [n] else t.pushes
  {
    if lineConfigured then t.(pushes := t.pushes + [n]) else t
  }

  /**
   * One iteration of the loop of `save_to_supabase`. A record without a
   * positive price changes nothing; any other is upserted; the history grows
   * by the new price exactly when a stored price exists and differs; a push
   * goes out (when LINE is configured) for every record except one whose
   * price is unchanged, and which push depends on the change.
   */
  function SyncOne(t: Tables, r: Record, lineConfigured: bool): (t': Tables)
    ensures r.price <= 0 ==> t' == t
    ensures r.price > 0 ==> t'.properties == t.properties[r.id := r]
    ensures t'.history ==
      if r.price > 0 && r.id in t.properties && t.properties[r.id].price != r.price
      then t.history + [HistoryEntry(r.id, r.price)] else t.history
    ensures t'.pushes == t.pushes <==>
      r.price <= 0 || !lineConfigured || (r.id in t.properties && t.properties[r.id].price == r.price)
    ensures lineConfigured && r.price > 0 && r.id !in t.properties ==>
      t'.pushes == t.pushes + [NewListing(r.title, r.price, r.url)]
    ensures (lineConfigured && r.price > 0 && r.id in t.properties &&
             t.properties[r.id].price - r.price >= MajorMarkdownThreshold) ==>
      var previous := t.properties[r.id].price;
      t'.pushes == t.pushes + [MarkdownNotice(r.title, previous, r.price, previous - r.price, r.url)]
    ensures (lineConfigured && r.price > 0 && r.id in t.properties &&
             t.properties[r.id].price != r.price &&
             t.properties[r.id].price - r.price < MajorMarkdownThreshold) ==>
      t'.pushes == t.pushes + [PriceChangeNotice(r.title, t.properties[r.id].price, r.price)]
  {
    if r.price <= 0 then t
    else
      match Classify(PriorPrice(t, r.id), r.price)
      case New =>
        Push(Upsert(t, r), NewListing(r.title, r.price, r.url), lineConfigured)
      case Unchanged =>
        Upsert(t, r)
      case MajorMarkdown(previous, current, diff) =>
        var t' := Upsert(t, r).(history := t.history + [HistoryEntry(r.id, current)]);
        Push(t', MarkdownNotice(r.title, previous, current, diff, r.url), lineConfigured)
      case PriceChanged(previous, current) =>
        var t' := Upsert(t, r).(history := t.history + [HistoryEntry(r.id, current)]);
        Push(t', PriceChangeNotice(r.title, previous, current), lineConfigured)
  }

  /**
   * The whole loop of `save_to_supabase`, record by record in batch order. A
   * run never deletes a row and only appends to the history and to the
   * pushes, at most one entry per record each.
   */
  function SyncAll(t: Tables, batch: seq<Record>, lineConfigured: bool): (t': Tables)
    ensures t.properties.Keys <= t'.properties.Keys
    ensures t.history <= t'.history && |t'.history| <= |t.history| + |batch|
    ensures t.pushes <= t'.pushes && |t'.pushes| <= |t.pushes| + |batch|
  {
    if batch == [] then t
    else SyncOne(SyncAll(t, batch[..|batch| - 1], lineConfigured), batch[|batch| - 1], lineConfigured)
  }

  /** The Supabase project and the LINE channel, as the sync sees them. */
  class PropertyStore {
    var properties: map<string, Record>
    var history: seq<HistoryEntry>
    var pushes: seq<Notification>
    /** Whether LINE_CHANNEL_ACCESS_TOKEN and LINE_USER_ID are both set. */
    const lineConfigured: bool

    function Contents(): Tables
      reads this
    {
      Tables(properties, history, pushes)
    }

    constructor (existing: map<string, Record>, lineConfigured: bool)
      ensures Contents() == Tables(existing, [], [])
      ensures this.lineConfigured == lineConfigured
    {
      properties := existing;
      history := [];
      pushes := [];
      this.lineConfigured := lineConfigured;
    }

    method SelectPrice(id: string) returns (prior: Option<int>)
      ensures prior == PriorPrice(Contents(), id)
    {
      if id in properties {
        prior := Some(properties[id].price);
      } else {
        prior := None;
      }
    }

    method UpsertProperty(r: Record)
      modifies this
      ensures Contents() == Upsert(old(Contents()), r)
    {
      properties := properties[r.id := r];
    }

    method InsertHistory(entry: HistoryEntry)
      modifies this
      ensures history == old(history) + [entry]
      ensures properties == old(properties) && pushes == old(pushes)
    {
      history := history + [entry];
    }

    method SendLinePush(n: Notification)
      modifies this
      ensures Contents() == Push(old(Contents()), n, lineConfigured)
    {
      if lineConfigured {
        pushes := pushes + [n];
      }
    }

    /**
     * `save_to_supabase(data_list)`: records with no positive price are
     * passed over; every other record is upserted, and logged and announced
     * according to its change.
     */
    method SaveToSupabase(batch: seq<Record>)
      modifies this
      ensures Contents() == SyncAll(old(Contents()), batch, lineConfigured)
    {
      var i := 0;
      while i < |batch|
        invariant 0 <= i <= |batch|
        invariant Contents() == SyncAll(old(Contents()), batch[..i], lineConfigured)
      {
        SyncAllStep(old(Contents()), batch, i, lineConfigured);
        SaveRecord(batch[i]);
        i := i + 1;
      }
      assert batch[..|batch|] == batch;
    }

    /** The body of the loop of `save_to_supabase` for one record `data`. */
    method SaveRecord(data: Record)
      modifies this
      ensures Contents() == SyncOne(old(Contents()), data, lineConfigured)
    {
      if data.price <= 0 {
        return;
      }
      var prior := SelectPrice(data.id);
      if prior.Some? {
        var oldPrice, newPrice := prior.value, data.price;
        var diff := oldPrice - newPrice;
        if oldPrice != newPrice {
          UpsertProperty(data);
          InsertHistory(HistoryEntry(data.id, newPrice));
          if diff >= MajorMarkdownThreshold {
            SendLinePush(MarkdownNotice(data.title, oldPrice, newPrice, diff, data.url));
          } else {
            SendLinePush(PriceChangeNotice(data.title, oldPrice, newPrice));
          }
        } else {
          UpsertProperty(data);
        }
      } else {
        UpsertProperty(data);
        SendLinePush(NewListing(data.title, data.price, data.url));
      }
    }
  }

  /** One more record applies its own step to the state the records before it left. */
  lemma SyncAllStep(t: Tables, batch: seq<Record>, i: nat, lineConfigured: bool)
    requires i < |batch|
    ensures SyncAll(t, batch[..i + 1], lineConfigured) == SyncOne(SyncAll(t, batch[..i], lineConfigured), batch[i], lineConfigured)
  {
    assert batch[..i + 1][..i] == batch[..i];
  }

  // ---------------------------------------------------------------------------
  // Properties of a whole run
  // ---------------------------------------------------------------------------

  /** No two records of the batch share an id. */
  predicate DistinctIds(batch: seq<Record>) {
    forall i, j :: 0 <= i < j < |batch| ==> batch[i].id != batch[j].id
  }

  /** After a run over records with distinct ids, each priced record is the row under its id. */
  lemma {:induction false} SyncAllStores(t: Tables, batch: seq<Record>, lineConfigured: bool)
    requires DistinctIds(batch)
    ensures forall k :: 0 <= k < |batch| && batch[k].price > 0 ==>
      batch[k].id in SyncAll(t, batch, lineConfigured).properties &&
      SyncAll(t, batch, lineConfigured).properties[batch[k].id] == batch[k]
  {
    if batch != [] {
      var init, last := batch[..|batch| - 1], batch[|batch| - 1];
      SyncAllStores(t, init, lineConfigured);
      forall k | 0 <= k < |batch| && batch[k].price > 0
        ensures batch[k].id in SyncAll(t, batch, lineConfigured).properties &&
          SyncAll(t, batch, lineConfigured).properties[batch[k].id] == batch[k]
      {
        if k < |batch| - 1 {
          assert init[k] == batch[k];
          assert batch[k].id != last.id;
        }
      }
    }
  }

  /** A run over records that are all stored as they are changes nothing at all. */
  lemma {:induction false} SyncAllQuiet(t: Tables, batch: seq<Record>, lineConfigured: bool)
    requires forall k :: 0 <= k < |batch| && batch[k].price > 0 ==>
      batch[k].id in t.properties && t.properties[batch[k].id] == batch[k]
    ensures SyncAll(t, batch, lineConfigured) == t
  {
    if batch != [] {
      var init, last := batch[..|batch| - 1], batch[|batch| - 1];
      assert forall k :: 0 <= k < |init| ==> init[k] == batch[k];
      SyncAllQuiet(t, init, lineConfigured);
      if last.price > 0 {
        assert t.properties[last.id := last] == t.properties;
      }
    }
  }

  /**
   * Running the sync twice on the same batch (no two records with one id)
   * leaves the store as the first run left it: the second run writes no
   * history entry and pushes no notification.
   */
  lemma RerunIsIdempotent(t: Tables, batch: seq<Record>, lineConfigured: bool)
    requires DistinctIds(batch)
    ensures SyncAll(SyncAll(t, batch, lineConfigured), batch, lineConfigured) == SyncAll(t, batch, lineConfigured)
    // The next two spell out what the whole-state equality above already gives.
    ensures SyncAll(SyncAll(t, batch, lineConfigured), batch, lineConfigured).history == SyncAll(t, batch, lineConfigured).history
    ensures SyncAll(SyncAll(t, batch, lineConfigured), batch, lineConfigured).pushes == SyncAll(t, batch, lineConfigured).pushes
  {
    SyncAllStores(t, batch, lineConfigured);
    SyncAllQuiet(SyncAll(t, batch, lineConfigured), batch, lineConfigured);
  }

  /**
   * Without distinct ids the rerun is not quiet: two records for one id at
   * different prices make each run log a change.
   */
  lemma DuplicateIdsRerunLogsAgain(a: Record, b: Record)
    requires a.id == b.id && a.price > 0 && b.price > 0 && a.price != b.price
    ensures var once := SyncAll(Tables(map[], [], []), [a, b], false);
      |SyncAll(once, [a, b], false).history| == |once.history| + 2
  {
    var empty := Tables(map[], [], []);
    assert [a, b][..1] == [a];
    assert [a][..0] == [];
    SyncAllPair(empty, a, b, false);
    var afterA := SyncOne(empty, a, false);
    assert afterA.properties[a.id] == a;
    var once := SyncOne(afterA, b, false);
    assert once.properties[a.id] == b;
    var againA := SyncOne(once, a, false);
    assert |againA.history| == |once.history| + 1;
    assert againA.properties[a.id] == a;
    SyncAllPair(once, a, b, false);
    assert |SyncOne(againA, b, false).history| == |once.history| + 2;
  }

  lemma SyncAllPair(t: Tables, a: Record, b: Record, lineConfigured: bool)
    ensures SyncAll(t, [a, b], lineConfigured) == SyncOne(SyncOne(t, a, lineConfigured), b, lineConfigured)
  {
    assert [a, b][..1] == [a];
    assert [a][..0] == [];
    assert SyncAll(t, [a], lineConfigured) == SyncOne(t, a, lineConfigured);
  }

  /** The worked examples of the four-way classification. */
  lemma ClassifyExamples()
    ensures Classify(Some(3000000), 2800000) == MajorMarkdown(3000000, 2800000, 200000)
    ensures Classify(Some(3000000), 2950000) == PriceChanged(3000000, 2950000)
    ensures Classify(Some(3000000), 3000000) == Unchanged
    ensures Classify(None, 3000000) == New
    ensures Classify(Some(3000000), 2900000).MajorMarkdown?
    ensures Classify(Some(3000000), 2900001).PriceChanged?
    ensures Classify(Some(2800000), 3000000).PriceChanged?
  {
  }

  /**
   * A page with one new card for sale, registration number NI-001 at 300万円
   * in 上市, and an empty store: the row is written with price 3,000,000 and
   * a "new listing" push carries its title and link.
   */
  lemma NewListingScenario(link: Option<string>)
    ensures var url := if link.Some? then link.value else TargetUrl;
      var record := Record("niimi_NI-001", Title("NI-001", "上市"), 3000000, Published, url);
      Extract(SaleCard("NI-001", "300万円", Some("上市"), link)) == Ok(record) &&
      SyncAll(Tables(map[], [], []), [record], true) ==
        Tables(map["niimi_NI-001" := record], [], [NewListing(Title("NI-001", "上市"), 3000000, url)])
  {
    assert IdPrefix + "NI-001" == "niimi_NI-001";
    var url := if link.Some? then link.value else TargetUrl;
    var record := Record("niimi_NI-001", Title("NI-001", "上市"), 3000000, Published, url);
    assert Extract(SaleCard("NI-001", "300万円", Some("上市"), link)) == Ok(record) by {
      Price.ManExample();
      ExtractSaleCard("NI-001", "300万円", Some("上市"), link);
    }
    assert [record][..0] == [];
    assert SyncAll(Tables(map[], [], []), [record], true) == SyncOne(Tables(map[], [], []), record, true);
  }
}
