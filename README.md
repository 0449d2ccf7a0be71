# Niimi vacant-house tracker: listing scraper and store sync

This project models `main.py` of a small tracker. The tracker scrapes the vacant-house
("akiya") listing of Niimi city and keeps a Supabase database and a LINE channel up to date.
It has two parts, both modelled:

- **`scrape_niimi_list`** turns every listing card of the page into a property record, or skips it.
  - A card is modelled as its `dt` labels, each with the stripped text of the following `dd`
    (`None` when there is none), and its `a` tags with their text and `href`.
  - `Listing.Extract` follows the source's steps in order:
    1. the registration number (登録番号), skipping a card with none or an empty one;
    2. the label exactly 販売価格, skipping a rent-only card;
    3. the price text;
    4. the location (所在地, defaulting to 新見市);
    5. the "詳しく見る" link (defaulting to the index page).
  - The Python exceptions the per-card `except` clause catches appear as `ParseError`:
    a label without a `dd`, a price token `float` rejects, a link without `href`.
  - The price (`Price.ParsePrice`) takes the leftmost longest run of `[\d,.]` and deletes its
    commas. It reads the rest as `float` does, as an exact decimal. It scales by 10000 when the
    text contains 万, else by 1000 when it contains 千, and takes the floor, as `int` does.
  - `Listing.ScrapeListing` is the collecting loop. It is proved equal to `Listing.Collect`,
    whose lemmas hold for any extraction function.
- **`save_to_supabase`** writes each record with a positive price to the store.
  - `Sync.Classify` compares the record's price with the stored one:
    new, unchanged, major markdown (a drop of at least 100000 yen), or any other change.
  - `Sync.SyncOne` states the effects of one record:
    - upsert into `properties`;
    - a `price_history` row when a stored price exists and differs;
    - a LINE push when the channel is configured and the record is new or its price changed, of a
      kind that depends on the change; none when the price is unchanged.
  - `Sync.PropertyStore` holds the two tables and the pushes as fields that its methods update.
    `SaveToSupabase` is its loop, proved equal to `Sync.SyncAll`, the fold of `SyncOne` over the batch.
  - Lemmas about `SyncAll` state what a whole run does:
    - rows are never removed, and history and pushes are only appended to;
    - with distinct ids, every priced record ends up stored;
    - a rerun of the same batch with distinct ids changes nothing;
    - with two records for one id at different prices, a rerun from an empty store (LINE not
      configured) logs both changes again.

Two details of the code that the model keeps as they are:

- The scraper emits a record with price 0 when the price text holds no digit, comma or period
  (main.py:70-71); the sync's `price <= 0` test drops it (main.py:108-109).
- Lines main.py:131, 139, 146 and 149 end in a stray `[cite: …]` suffix, which Python would not
  parse. The model takes those lines as the statements without the suffix.

## Model

| member | source | states |
|---|---|---|
| Price.Search | main.py:70 | `re.search(r'([\d,.]+)')`: no match exactly when no character is a digit, comma or period; otherwise the match is the leftmost, longest such run |
| Price.FirstRunUnique | main.py:70 | the leftmost longest run is unique, so any run with that property is the match |
| Price.StripCommas | main.py:73 | `replace(',', '')` leaves no comma and never lengthens the token |
| Price.StripCommasAppend | main.py:73 | removing commas from a concatenation removes them from each part and keeps the parts in order |
| Price.StripCommasOne | main.py:73 | a single comma disappears and any other single character stays; with StripCommasAppend this fixes the result, order included, on every string |
| Price.StripCommasKeeps | main.py:73 | every character other than a comma is kept, as many times as it occurs |
| Price.StripCommasOfRun | main.py:70-73 | a run of `[\d,.]` without its commas holds only digits and periods, the input `float` receives |
| Price.StripCommasNoComma | main.py:73 | a token without commas is passed to `float` unchanged |
| Price.ParseFloat | main.py:73 | `float` of digits and periods succeeds exactly when there is at most one period and at least one digit |
| Price.ParseFloatWhole | main.py:73 | `float` of a string of digits is that whole number |
| Price.ParseFloatFraction | main.py:73 | `float("w.f")` is w + f / 10^len(f), whenever there is a digit on either side |
| Price.DigitsValueAppend | main.py:73 | reading digits left to right: appended digits fill the low places |
| Price.PeriodsCounted | main.py:73 | "no period is followed by another" is the same as "at most one period in the string" |
| Price.FloatOfToken | main.py:73 | removing the commas changes neither the number of periods nor whether there is a digit, so `float` accepts the stripped token exactly when the raw token has at most one period and a digit |
| Price.TokenNumber | main.py:73 | `float(token.replace(',', ''))` raises exactly when the token has two or more periods or no digit |
| Price.UnitScale | main.py:75-80 | the unit is 10000 exactly when the text contains 万; 1000 exactly when it contains 千 but not 万; otherwise 1 |
| Price.Truncate | main.py:75-80 | `int(value * scale)` is the floor of the exact product |
| Price.ParsePrice | main.py:70-72 | a price text with no digit, comma or period is 0 yen |
| Price.ParsePriceOfRun | main.py:70-80 | given the first run, the price is an error exactly when `float` rejects the run, the error names that run, and otherwise the price is the floor of its value times the unit (10000 for 万, else 1000 for 千, else 1) |
| Price.PriceOfAmount | main.py:70-80 | an amount of digits and thousands separators between text without any is read without its commas and multiplied by the unit |
| Price.PriceInMan | main.py:70-76 | digits followed by 万円 are that number of ten thousands |
| Price.ManExample | main.py:75-76 | "300万円" is 3,000,000 yen |
| Price.SenExample | main.py:73-78 | "1,200千円" is 1,200,000 yen: the comma is a separator |
| Price.NoAmountExample | main.py:70-71 | "応相談" is 0 yen |
| Price.TwoPeriodsExample | main.py:73 | "1.2.3万円" is an error, because `float` rejects the token |
| Price.LoneCommaExample | main.py:73 | "価格,未定" is an error: the run "," is empty once its comma is removed |
| Price.DecimalExample | main.py:73-76 | "2.5万円" is 25,000 yen: the period is a decimal point |
| Price.FullWidthExample | main.py:70-76 | "３００万円" is 3,000,000 yen: full-width digits are digits |
| Listing.FirstEntry | main.py:57-84 | `card.find('dt', string=…)`: no result exactly when no label matches; otherwise the first label that matches |
| Listing.FirstAnchor | main.py:87 | `card.find('a', string=re.compile('詳しく見る'))`: no result exactly when no link text contains it; otherwise the first that does |
| Listing.Lookup | main.py:57-84 | `find` then `find_next_sibling('dd')`: nothing exactly when no label matches; otherwise, for the first matching label, its value or, when it has none, the error naming that label |
| Listing.DetailUrl | main.py:87-88 | the index page when no link text contains 詳しく見る; otherwise the first such link's `href`, or the error when it has none |
| Listing.Title | main.py:91 | the title is 登録番号, then the number, then the location inside full-width parentheses, so number and location can be read back from it |
| Listing.Extract | main.py:56-98 | every record it gives has an id made of "niimi_" and a non-empty number, and the status 公開中; the other fields are stated by EmittedRecord, and when it succeeds by ExtractOk |
| Listing.ExtractOk | main.py:56-98 | a card gives a record exactly when the 登録番号 value is present and non-empty, the 販売価格 label has a value that parses, the 所在地 lookup does not fail and the detail link, if any, has an `href`; otherwise it gives a skip or a parse error |
| Listing.NoIdentifierSkip | main.py:57-59 | a card is skipped for lacking an identifier exactly when it has no 登録番号 label or its value is empty |
| Listing.RentalOnlySkip | main.py:62-65 | a card with an identifier is skipped as a rental exactly when no label equals 販売価格; an emitted record always comes from a card with that exact label |
| Listing.EmittedRecord | main.py:83-98 | an emitted record has id "niimi_" + number, the title 登録番号 + number + （location） with the location defaulting to 新見市, status 公開中, the detail link or the index page, and the price parsed from the 販売価格 value |
| Listing.ExtractSaleCard | main.py:56-98 | a card with a non-empty number and a parsable price gives exactly the record above, with the defaults for a missing location or link |
| Listing.Collect | main.py:52-104 | the scraper returns at most one record per card |
| Listing.ScrapeListing | main.py:52-104 | the loop over the cards returns exactly the records of the cards that gave one, in card order (`Collect(Extract, cards)`) |
| Listing.CollectAppend | main.py:54-104 | collecting two runs of cards is collecting each and joining the results |
| Listing.CollectIsolation | main.py:100-102 | a card that fails or is skipped leaves the records of the cards around it as they would be without it |
| Listing.CollectExactly | main.py:93-104 | every returned record is the record of some card, and every card that gives a record has it returned |
| Listing.CollectAllOk | main.py:54-104 | when every card gives a record, the k-th result is the k-th card's record |
| Listing.OneBadCard | main.py:54-102 | a batch of N cards of which exactly one fails gives N - 1 records: those of the cards before it, then those after it |
| Sync.Classify | main.py:117-145 | no stored price is new; an equal price is unchanged; a drop of at least 100000 is a major markdown with the old price, the new one and the drop; every other difference, rises included, is a price change |
| Sync.PriorPrice | main.py:112-119 | the stored price under the id, none exactly when no row has that id |
| Sync.Upsert | main.py:125 | the row under the record's id becomes the record and is added if absent; every other row, the history and the pushes are unchanged |
| Sync.Push | main.py:20-24 | rows and history are unchanged; the notification is appended exactly when LINE is configured |
| Sync.SyncOne | main.py:107-150 | a record without a positive price changes nothing. Otherwise the record is upserted. A history row with the new price is added exactly when a different price was stored. A push goes out unless LINE is unconfigured or the price is unchanged, and it is a new-listing, a markdown or a price-change notice as the comparison says |
| Sync.PropertyStore.constructor | main.py:9-15 | a store holding the given rows, with empty history and pushes, and LINE configured or not |
| Sync.PropertyStore.SelectPrice | main.py:112-119 | the answer of the select is `PriorPrice` of the store: the stored price under the id, none exactly when no row has that id |
| Sync.PropertyStore.UpsertProperty | main.py:125 | the new store is `Upsert` of the old one: the row under the record's id becomes the record; nothing else changes |
| Sync.PropertyStore.InsertHistory | main.py:126-131 | the history grows by exactly the given row; nothing else changes |
| Sync.PropertyStore.SendLinePush | main.py:20-24 | the notification is appended when LINE is configured, and nothing happens otherwise |
| Sync.PropertyStore.SaveRecord | main.py:108-150 | one pass of the loop body leaves the store exactly as `SyncOne` says for that record |
| Sync.PropertyStore.SaveToSupabase | main.py:106-150 | the loop over the batch leaves the store exactly as `SyncAll` of the batch says |
| Sync.SyncAll | main.py:107-150 | a run never removes a row; the history and the pushes are only appended to, by at most one entry per record |
| Sync.SyncAllStores | main.py:125-146 | after a run over records with distinct ids, every record with a positive price is the row under its id |
| Sync.SyncAllQuiet | main.py:118-142 | a run over records already stored as they are changes nothing |
| Sync.RerunIsIdempotent | main.py:106-150 | running the sync twice on a batch with distinct ids leaves the store as one run does: no further history rows and no further pushes |
| Sync.DuplicateIdsRerunLogsAgain | main.py:118-131 | with two records for one id at different prices, run from an empty store with LINE not configured, the second run adds two history rows again |
| Sync.ClassifyExamples | main.py:121-139 | 3,000,000 → 2,800,000 is a major markdown of 200,000; → 2,950,000 and the rise 2,800,000 → 3,000,000 are price changes; a drop of exactly 100,000 is a major markdown and of 99,999 is not |
| Sync.NewListingScenario | main.py:54-150 | a new sale card NI-001 at 300万円 in 上市 gives the record niimi_NI-001 priced 3,000,000, and syncing it into an empty store writes that row, no history, and one new-listing push |

## Left out

- The HTTP fetch of the listing page, its User-Agent header and the encoding detection (main.py:44-46) are network I/O. Cards are given already decoded.
- HTML parsing and the `.p-bukken` selection (main.py:47-50) are replaced by the abstract card. `find_next_sibling('dd')` becomes the optional value stored with each label. The `dd` text is given already stripped. A label or link text is the tag's `.string`. A `dt` or an `a` whose `.string` is `None` (nested markup) is not modelled. Such an `a` is never found by `find('a', string=…)`, so its card falls back to the index page.
- `\d` is ASCII 0-9 and full-width ０-９. Other Unicode decimal digits, which Python's `re` and `float` also accept, are not modelled.
- Price.StripCommas: its own contract states only that no comma is left and the token does not grow. That the kept characters stay in their order is stated by StripCommasAppend and StripCommasOne, which together fix the result on every string.
- Price.Truncate: computes the exact floor of the decimal value times the unit. It does not model binary floating-point rounding of `float(...) * 10000`, nor the overflow to infinity that makes `int` raise for an enormous token.
- The LINE HTTP request, its status check and its failure logging (main.py:26-41) are left out. A push is the notification appended to a log.
- The Supabase client (main.py:9-11) and its calls are modelled as a map and sequences that always succeed. A failing call, which would abort the whole run, is left out.
- The `changed_at: "now()"` timestamp of a history row (main.py:129) is a clock value and is left out.
- The message texts are reduced to the kind of notification and the values it shows (main.py:135, 138, 148). Their emoji, `{:,}` thousands formatting and line breaks are left out.
- Console `print` logging (main.py:23, 64, 101, 149, 153, 155) and the `__main__` driver (main.py:152-156) are left out; the driver only chains the two functions.
