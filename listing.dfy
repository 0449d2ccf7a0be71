/**
 * The scraper of the Niimi city vacant-house listing (`scrape_niimi_list`):
 * each listing card becomes a property record or is skipped, and the
 * collector keeps the records of the cards that gave one, in card order.
 *
 * A card is abstracted from its HTML: the `dt` labels it holds, each with the
 * stripped text of the `dd` sibling that follows it, and its `a` tags with
 * their visible text and `href`. Python's `None.find_next_sibling` error and
 * the `KeyError` of a link without `href` appear as `ParseError` skips.
 */
module Listing {
  import opened Wrappers
  import Price

  /** The listing index page; also the detail link of a card that has none. */
  const TargetUrl: string := "https://www.city.niimi.okayama.jp/akurashi/customer/customer_search"

  const IdLabel: string := "登録番号"
  const SalePriceLabel: string := "販売価格"
  const LocationLabel: string := "所在地"
  const DetailLinkText: string := "詳しく見る"
  /** The location of a card that names none: the city itself. */
  const DefaultLocation: string := "新見市"
  const IdPrefix: string := "niimi_"
  /** The one status a scraped record carries ("published"). */
  const Published: string := "公開中"

  /** A `dt` label and the text of the `dd` after it (`None` when no `dd` follows). */
  datatype Entry = Entry(term: string, detail: Option<string>)

  /** An `a` tag: its `.string` (the text of a tag whose only child is text) and its `href` attribute, if any. */
  datatype Anchor = Anchor(text: string, href: Option<string>)

  /** One `.p-bukken` element of the page. */
  datatype Card = Card(entries: seq<Entry>, anchors: seq<Anchor>)

  /** The dictionary the scraper appends for a card. */
  datatype Record = Record(id: string, title: string, price: nat, status: string, url: string)

  /** The exception that ends the extraction of one card. */
  datatype Cause =
    | NoValueAfter(term: string)   // a matching `dt` with no `dd` sibling
    | BadPrice(error: Price.PriceError) // `float` rejected the price token
    | NoHref                        // the detail link has no `href`

  /** Why a card gives no record. */
  datatype Skip = NoIdentifier | RentalOnly | ParseError(cause: Cause)

  /** `re.search(part, s)` for a pattern without special characters. */
  predicate Contains(s: string, part: string) {
    exists i :: 0 <= i <= |s| - |part| && OccursAt(s, part, i)
  }

  predicate OccursAt(s: string, part: string, i: int) {
    0 <= i <= |s| - |part| && s[i..i + |part|] == part
  }

  /** The `string=` argument of `card.find`: a compiled pattern or a plain string. */
  datatype LabelPattern = Containing(part: string) | Exactly(whole: string)

  predicate Matches(p: LabelPattern, term: string) {
    match p
    case Containing(part) => Contains(term, part)
    case Exactly(whole) => term == whole
  }

  /** The index of the first entry at or after `from` whose label matches `p`. */
  function FirstEntry(entries: seq<Entry>, p: LabelPattern, from: nat): (r: Option<nat>)
    requires from <= |entries|
    ensures r.None? <==> forall k :: from <= k < |entries| ==> !Matches(p, entries[k].term)
    ensures r.Some? ==>
      from <= r.value < |entries| && Matches(p, entries[r.value].term) &&
      (forall k :: from <= k < r.value ==> !Matches(p, entries[k].term))
    decreases |entries| - from
  {
    if from == |entries| then None
    else if Matches(p, entries[from].term) then Some(from)
    else FirstEntry(entries, p, from + 1)
  }

  /** The index of the first anchor at or after `from` whose text contains `part`. */
  function FirstAnchor(anchors: seq<Anchor>, part: string, from: nat): (r: Option<nat>)
    requires from <= |anchors|
    ensures r.None? <==> forall k :: from <= k < |anchors| ==> !Contains(anchors[k].text, part)
    ensures r.Some? ==>
      from <= r.value < |anchors| && Contains(anchors[r.value].text, part) &&
      (forall k :: from <= k < r.value ==> !Contains(anchors[k].text, part))
    decreases |anchors| - from
  {
    if from == |anchors| then None
    else if Contains(anchors[from].text, part) then Some(from)
    else FirstAnchor(anchors, part, from + 1)
  }

  /** Entry `k` is the first whose label matches `p`. */
  predicate IsFirstMatch(entries: seq<Entry>, p: LabelPattern, k: int) {
    0 <= k < |entries| && Matches(p, entries[k].term) &&
    forall j :: 0 <= j < k ==> !Matches(p, entries[j].term)
  }

  /**
   * `card.find('dt', string=p)` followed by `.find_next_sibling('dd').get_text()`:
   * `Ok(None)` when no label matches, an error when the first matching label
   * has no value, and that value otherwise.
   */
  function Lookup(entries: seq<Entry>, p: LabelPattern): (r: Result<Option<string>, Cause>)
    ensures r == Ok(None) <==> forall k :: 0 <= k < |entries| ==> !Matches(p, entries[k].term)
    ensures forall k :: IsFirstMatch(entries, p, k) ==>
      r == if entries[k].detail.None? then Err(NoValueAfter(entries[k].term)) else Ok(entries[k].detail)
  {
    match FirstEntry(entries, p, 0)
    case None => Ok(None)
    case Some(k) =>
      match entries[k].detail
      case None => Err(NoValueAfter(entries[k].term))
      case Some(v) => Ok(Some(v))
  }

  /** Anchor `k` is the first whose text contains 詳しく見る. */
  predicate IsFirstLink(anchors: seq<Anchor>, k: int) {
    0 <= k < |anchors| && Contains(anchors[k].text, DetailLinkText) &&
    forall j :: 0 <= j < k ==> !Contains(anchors[j].text, DetailLinkText)
  }

  /** `card.find('a', string=re.compile('詳しく見る'))['href']`, or the index page when there is no such link. */
  function DetailUrl(anchors: seq<Anchor>): (r: Result<string, Cause>)
    ensures (forall k :: 0 <= k < |anchors| ==> !Contains(anchors[k].text, DetailLinkText)) ==> r == Ok(TargetUrl)
    ensures forall k :: IsFirstLink(anchors, k) ==>
      r == if anchors[k].href.None? then Err(NoHref) else Ok(anchors[k].href.value)
  {
    match FirstAnchor(anchors, DetailLinkText, 0)
    case None => Ok(TargetUrl)
    case Some(k) =>
      match anchors[k].href
      case None => Err(NoHref)
      case Some(url) => Ok(url)
  }

  /** The display title: the label 登録番号, the number, then the location in full-width parentheses. */
  function Title(number: string, location: string): (t: string)
    ensures |t| == |IdLabel| + |number| + |location| + 2
    ensures t[..|IdLabel|] == IdLabel
    ensures t[|IdLabel|..|IdLabel| + |number|] == number
    ensures t[|IdLabel| + |number|] == '（' && t[|t| - 1] == '）'
    ensures t[|IdLabel| + |number| + 1..|t| - 1] == location
  {
    IdLabel + number + "（" + location + "）"
  }

  /**
   * The extraction of one card, in the order the source performs its steps:
   * registration number, sale price, location, detail link.
   */
  function Extract(card: Card): (r: Result<Record, Skip>)
    ensures r.Ok? ==>
      |r.value.id| > |IdPrefix| && r.value.id[..|IdPrefix|] == IdPrefix && r.value.status == Published
  {
    match Lookup(card.entries, Containing(IdLabel))
    case Err(cause) => Err(ParseError(cause))
    case Ok(None) => Err(NoIdentifier)
    case Ok(Some(number)) =>
      if number == "" then Err(NoIdentifier)
      else
        match FirstEntry(card.entries, Exactly(SalePriceLabel), 0)
        case None => Err(RentalOnly)
        case Some(k) =>
          match card.entries[k].detail
          case None => Err(ParseError(NoValueAfter(SalePriceLabel)))
          case Some(priceText) =>
            match Price.ParsePrice(priceText)
            case Err(e) => Err(ParseError(BadPrice(e)))
            case Ok(price) =>
              match Lookup(card.entries, Containing(LocationLabel))
              case Err(cause) => Err(ParseError(cause))
              case Ok(found) =>
                var location := if found.None? then DefaultLocation else found.value;
                match DetailUrl(card.anchors)
                case Err(cause) => Err(ParseError(cause))
                case Ok(url) =>
                  Ok(Record(IdPrefix + number, Title(number, location), price, Published, url))
  }

  /** No registration number, or an empty one: the card is skipped as having no identifier, and only then. */
  lemma NoIdentifierSkip(card: Card)
    ensures Extract(card) == Err(NoIdentifier) <==>
      Lookup(card.entries, Containing(IdLabel)) in {Ok(None), Ok(Some(""))}
  {
  }

  /**
   * A card with a registration number but no label exactly 販売価格 (one that
   * shows only a rent) is skipped as a rental, and only such a card is; an
   * emitted record always comes from a card with that exact label.
   */
  lemma RentalOnlySkip(card: Card)
    ensures Extract(card) == Err(RentalOnly) <==>
      (Lookup(card.entries, Containing(IdLabel)).Ok? &&
       Lookup(card.entries, Containing(IdLabel)).value.Some? &&
       Lookup(card.entries, Containing(IdLabel)).value.value != "" &&
       forall k :: 0 <= k < |card.entries| ==> card.entries[k].term != SalePriceLabel)
    ensures Extract(card).Ok? ==> exists k :: 0 <= k < |card.entries| && card.entries[k].term == SalePriceLabel
  {
  }

  /**
   * An emitted record: id "niimi_" + number, the composed title (location
   * defaulting to the city), status 公開中, the detail link (defaulting to the
   * index page) and the price parsed from the 販売価格 value.
   */
  lemma EmittedRecord(card: Card)
    requires Extract(card).Ok?
    ensures
      var r := Extract(card).value;
      Lookup(card.entries, Containing(IdLabel)).Ok? &&
      Lookup(card.entries, Containing(IdLabel)).value.Some? &&
      var number := Lookup(card.entries, Containing(IdLabel)).value.value;
      var location := Lookup(card.entries, Containing(LocationLabel));
      number != "" &&
      r.id == IdPrefix + number &&
      location.Ok? &&
      r.title == Title(number, if location.value.None? then DefaultLocation else location.value.value) &&
      r.status == Published &&
      DetailUrl(card.anchors) == Ok(r.url) &&
      Lookup(card.entries, Exactly(SalePriceLabel)).Ok? &&
      Lookup(card.entries, Exactly(SalePriceLabel)).value.Some? &&
      Price.ParsePrice(Lookup(card.entries, Exactly(SalePriceLabel)).value.value) == Ok(r.price)
  {
  }

  /**
   * A card gives a record exactly when every step succeeds: a non-empty
   * registration number, a 販売価格 value that parses, a location lookup that
   * does not fail and a detail link that does not lack its `href`.
   */
  lemma ExtractOk(card: Card)
    ensures Extract(card).Ok? <==>
      var id := Lookup(card.entries, Containing(IdLabel));
      var price := Lookup(card.entries, Exactly(SalePriceLabel));
      id.Ok? && id.value.Some? && id.value.value != "" &&
      price.Ok? && price.value.Some? && Price.ParsePrice(price.value.value).Ok? &&
      Lookup(card.entries, Containing(LocationLabel)).Ok? &&
      DetailUrl(card.anchors).Ok?
  {
  }

  // ---------------------------------------------------------------------------
  // A well-formed sale card and what it gives
  // ---------------------------------------------------------------------------

  /**
   * A card as the listing page lays out a property for sale: the
   * registration number, the sale price, and optionally a location and a
   * "詳しく見る" link.
   */
  function SaleCard(number: string, priceText: string, location: Option<string>, link: Option<string>): Card {
    Card(SaleEntries(number, priceText, location),
         if link.Some? then [Anchor(DetailLinkText, link)] else [])
  }

  function SaleEntries(number: string, priceText: string, location: Option<string>): seq<Entry> {
    [Entry(IdLabel, Some(number)), Entry(SalePriceLabel, Some(priceText))] +
    (if location.Some? then [Entry(LocationLabel, location)] else [])
  }

  /** A sale card gives its record; a missing location or link falls back to the city and the index page. */
  lemma ExtractSaleCard(number: string, priceText: string, location: Option<string>, link: Option<string>)
    requires number != ""
    requires Price.ParsePrice(priceText).Ok?
    ensures Extract(SaleCard(number, priceText, location, link)) ==
      Ok(Record(IdPrefix + number,
                Title(number, if location.Some? then location.value else DefaultLocation),
                Price.ParsePrice(priceText).value,
                Published,
                if link.Some? then link.value else TargetUrl))
  {
    var es := SaleEntries(number, priceText, location);
    SaleNumber(number, priceText, location);
    SalePrice(number, priceText, location);
    SaleLocation(number, priceText, location);
    SaleLink(link);
  }

  lemma SaleNumber(number: string, priceText: string, location: Option<string>)
    ensures Lookup(SaleEntries(number, priceText, location), Containing(IdLabel)) == Ok(Some(number))
  {
    assert OccursAt(IdLabel, IdLabel, 0);
    assert FirstEntry(SaleEntries(number, priceText, location), Containing(IdLabel), 0) == Some(0);
  }

  lemma SalePrice(number: string, priceText: string, location: Option<string>)
    ensures var es := SaleEntries(number, priceText, location);
      FirstEntry(es, Exactly(SalePriceLabel), 0) == Some(1) && es[1].detail == Some(priceText)
  {
    var es := SaleEntries(number, priceText, location);
    assert es[0].term != SalePriceLabel by { assert es[0].term[0] != SalePriceLabel[0]; }
    assert FirstEntry(es, Exactly(SalePriceLabel), 1) == Some(1);
  }

  lemma SaleLocation(number: string, priceText: string, location: Option<string>)
    ensures Lookup(SaleEntries(number, priceText, location), Containing(LocationLabel)) == Ok(location)
  {
    var es := SaleEntries(number, priceText, location);
    assert !Contains(IdLabel, LocationLabel) by {
      assert !OccursAt(IdLabel, LocationLabel, 0) by { assert IdLabel[0] != LocationLabel[0]; }
      assert !OccursAt(IdLabel, LocationLabel, 1) by { assert IdLabel[1] != LocationLabel[0]; }
    }
    assert !Contains(SalePriceLabel, LocationLabel) by {
      assert !OccursAt(SalePriceLabel, LocationLabel, 0) by { assert SalePriceLabel[0] != LocationLabel[0]; }
      assert !OccursAt(SalePriceLabel, LocationLabel, 1) by { assert SalePriceLabel[1] != LocationLabel[0]; }
    }
    if location.Some? {
      assert OccursAt(LocationLabel, LocationLabel, 0);
      assert FirstEntry(es, Containing(LocationLabel), 2) == Some(2);
      assert FirstEntry(es, Containing(LocationLabel), 1) == Some(2);
    } else {
      assert FirstEntry(es, Containing(LocationLabel), 0) == None;
    }
  }

  lemma SaleLink(link: Option<string>)
    ensures DetailUrl(if link.Some? then [Anchor(DetailLinkText, link)] else []) ==
      Ok(if link.Some? then link.value else TargetUrl)
  {
    if link.Some? {
      assert OccursAt(DetailLinkText, DetailLinkText, 0);
      assert FirstAnchor([Anchor(DetailLinkText, link)], DetailLinkText, 0) == Some(0);
    }
  }

  // ---------------------------------------------------------------------------
  // The collector
  // ---------------------------------------------------------------------------

  /**
   * The records that `extract` gives for `cards`, in card order; the cards it
   * skips or fails on contribute nothing. The scraper's collection is
   * `Collect(Extract, cards)`; the lemmas below hold for any extraction.
   */
  function Collect(extract: Card -> Result<Record, Skip>, cards: seq<Card>): (records: seq<Record>)
    ensures |records| <= |cards|
  {
    if cards == [] then []
    else
      var outcome := extract(cards[|cards| - 1]);
      Collect(extract, cards[..|cards| - 1]) + (if outcome.Ok? then [outcome.value] else [])
  }

  /**
   * The loop of `scrape_niimi_list` over the `.p-bukken` cards: a card that
   * gives a record is appended to the results; one that is skipped or fails
   * (the `continue` statements and the `except` clause) is passed over.
   */
  method ScrapeListing(cards: seq<Card>) returns (results: seq<Record>)
    ensures results == Collect(Extract, cards)
  {
    results := [];
    var i := 0;
    while i < |cards|
      invariant 0 <= i <= |cards|
      invariant results == Collect(Extract, cards[..i])
    {
      CollectStep(Extract, cards, i);
      match Extract(cards[i]) {
        case Ok(record) => results := results + [record];
        case Err(_) =>
      }
      i := i + 1;
    }
    assert cards[..|cards|] == cards;
  }

  /** One more card adds its record, if it gives one, at the end. */
  lemma CollectStep(extract: Card -> Result<Record, Skip>, cards: seq<Card>, i: nat)
    requires i < |cards|
    ensures Collect(extract, cards[..i + 1]) ==
      Collect(extract, cards[..i]) + (if extract(cards[i]).Ok? then [extract(cards[i]).value] else [])
  {
    assert cards[..i + 1][..i] == cards[..i];
  }

  /** Collecting two runs of cards is collecting each. */
  lemma {:induction false} CollectAppend(extract: Card -> Result<Record, Skip>, a: seq<Card>, b: seq<Card>)
    ensures Collect(extract, a + b) == Collect(extract, a) + Collect(extract, b)
    decreases |b|
  {
    if b == [] {
      assert a + b == a;
    } else {
      var b' := b[..|b| - 1];
      assert (a + b)[..|a + b| - 1] == a + b';
      assert (a + b)[|a + b| - 1] == b[|b| - 1];
      CollectAppend(extract, a, b');
    }
  }

  /** A card that fails or is skipped changes nothing for the cards around it. */
  lemma CollectIsolation(extract: Card -> Result<Record, Skip>, before: seq<Card>, bad: Card, after: seq<Card>)
    requires extract(bad).Err?
    ensures Collect(extract, before + [bad] + after) == Collect(extract, before) + Collect(extract, after)
  {
    var front := before + [bad];
    assert Collect(extract, [bad]) == [] by {
      assert [bad][..0] == [];
    }
    assert Collect(extract, front) == Collect(extract, before) by {
      CollectAppend(extract, before, [bad]);
    }
    CollectAppend(extract, front, after);
  }

  /** Every collected record comes from some card, and every card that gives a record is collected. */
  lemma {:induction false} CollectExactly(extract: Card -> Result<Record, Skip>, cards: seq<Card>)
    ensures forall r :: r in Collect(extract, cards) ==> exists c :: c in cards && extract(c) == Ok(r)
    ensures forall c :: c in cards && extract(c).Ok? ==> extract(c).value in Collect(extract, cards)
    decreases |cards|
  {
    if cards != [] {
      var init := cards[..|cards| - 1];
      CollectExactly(extract, init);
      assert cards == init + [cards[|cards| - 1]];
      forall c | c in cards && extract(c).Ok? ensures extract(c).value in Collect(extract, cards) {
        if c !in init {
          assert c == cards[|cards| - 1];
        }
      }
    }
  }

  /** When every card gives a record, the k-th record is the k-th card's. */
  lemma {:induction false} CollectAllOk(extract: Card -> Result<Record, Skip>, cards: seq<Card>)
    requires forall k :: 0 <= k < |cards| ==> extract(cards[k]).Ok?
    ensures |Collect(extract, cards)| == |cards|
    ensures forall k :: 0 <= k < |cards| ==> Collect(extract, cards)[k] == extract(cards[k]).value
    decreases |cards|
  {
    if cards != [] {
      CollectAllOk(extract, cards[..|cards| - 1]);
    }
  }

  /**
   * A batch of N cards in which exactly one, `bad`, fails yields N - 1
   * records: those of the cards before it, then those of the cards after it.
   */
  lemma OneBadCard(extract: Card -> Result<Record, Skip>, before: seq<Card>, bad: Card, after: seq<Card>)
    requires extract(bad).Err?
    requires forall k :: 0 <= k < |before| ==> extract(before[k]).Ok?
    requires forall k :: 0 <= k < |after| ==> extract(after[k]).Ok?
    ensures |Collect(extract, before + [bad] + after)| == |before| + |after|
    ensures forall k :: 0 <= k < |before| ==>
      Collect(extract, before + [bad] + after)[k] == extract(before[k]).value
    ensures forall k :: 0 <= k < |after| ==>
      Collect(extract, before + [bad] + after)[|before| + k] == extract(after[k]).value
  {
    CollectIsolation(extract, before, bad, after);
    CollectAllOk(extract, before);
    CollectAllOk(extract, after);
  }
}
