# Trade Republic → Firefly III transaction mirror: a Dafny model of the core

This project models the core of `firefly_traderepublic_transactions`, a tool that copies a
Trade Republic account's timeline into a Firefly III ledger. The tool aims to post each new
transaction once, in chronological order; the points below say where the code falls short of
that. It resumes from a marker file that records the leg id of the
last transaction it handled.

The model has two parts:

- **The classifier** (class `FireflyTransaction`). Its constructor derives the ledger
  transaction's fields. `extract_type` picks the kind from the type tag and the sign of the
  amount. `extract_opposite_acount` picks the counter-party. `get_json` routes the source and
  the destination to the known account, the counter-party, the vault, the top-up account or
  the wallet, and builds the payload.
- **The incremental processor** (class `FireflyTransactions`). Its constructor sorts the feed
  stably by `createdDate`, keeps the records that pass three conditions, and classifies them.
  `process` then makes one pass over the list. It skips everything up to and including the
  transaction named by the marker, pushes the rest, and writes the marker back at most once, at the end. A pass that raises
  writes nothing, and neither does a pass whose marker is found on the last transaction.

Modules:

- `Wrappers` (`wrappers.dfy`): `Option` and `Result`. The source's exceptions become `Err`
  values.
- `Classifier` (`classifier.dfy`): `Kind`, `Error`, `Txn`, `Endpoint` (`ById` for a `*_id` key,
  `ByName` for a `*_name` key), `Payload`, and the three classifier functions.
- `Feed` (`feed.dfy`): the raw record, the filter, Python's stable `sorted` written as an
  insertion sort, and the classification of the kept records.
- `MarkerStore` (`marker_store.dfy`): what `process` reads back from the marker file, which is
  `readline()` followed by `strip()`.
- `Processor` (`processor.dfy`): class `Transactions`. Its `marker` field holds the marker
  file's text, and the empty text stands for a missing file. Its ghost `pushed` field logs
  every payload posted to the ledger. `BuildList` is the constructor's loop. `Process` is
  `process`, proved against the specification functions `After`, `PushAll` and `NewMarker`.

Amounts are signed integers (minor units), because the source only uses their sign and
absolute value. The date is the opaque value `DayOf(createdDate)`. The vault field is
`Option<bool>`: `None` when the key is absent or null, `Some(b)` with `b` its truthiness. This
keeps the filter's `is None` test apart from the constructor's `bool(...)`, as in the source.

Points where the code behaves differently from what one might expect, which the model follows:

- A record whose `vault` value is present but falsy counts as a vault record for the filter.
  It is dropped unless its amount is negative. It is still not a vault movement for routing.
- An unknown type tag on a record that passes the filter raises while the list is being built. So no transaction at all is pushed
  in that run, not only the entries after the failing one.
- A record whose leg id equals the stripped marker is found even when the marker is empty.
  So a first run over a record with an empty leg id does not bootstrap.
- A pass in which `get_json` raises part-way has already posted the payloads before the
  failing transaction, but it never writes the marker. The next pass starts from the same
  marker and posts those payloads again (`Processor.RepostAfterRaise`). So each transaction is
  posted at most once only across passes that finish without raising.

## Model

| member | source | states |
|---|---|---|
| Classifier.ExtractType | firefly_traderepublic_transactions/firefly_traderepublic_transactions.py:53-61 | A kind is returned exactly for the known tags, except `CARD_REFUND` with amount ≤ 0 and `EXCHANGE` with amount 0. Every other input raises 'Unknown transfer type'. |
| Classifier.ExtractTypeFollowsRules | firefly_traderepublic_transactions/firefly_traderepublic_transactions.py:54-61 | `extract_type` equals the first-match reading of the ordered rule table: card payment → withdrawal; negative exchange → withdrawal; positive transfer/exchange/card refund → deposit; top-up/transfer/ATM → transfer; otherwise raise. A positive TRANSFER is therefore a deposit. |
| Classifier.OppositeAccount | firefly_traderepublic_transactions/firefly_traderepublic_transactions.py:63-68 | The counter-party is the merchant's name when a merchant record is present, else the description. |
| Classifier.NewTxn | firefly_traderepublic_transactions/firefly_traderepublic_transactions.py:20-40 | The constructor raises exactly when `extract_type` does. Otherwise it copies the leg id, category, vault flag, currency and amount, and takes its kind, day and counter-party from the three extractors. |
| Classifier.GetJson | firefly_traderepublic_transactions/firefly_traderepublic_transactions.py:79-119 | It raises exactly when the substitution it makes lacks its account id: vault (any vault movement), top-up (transfer > 0) or wallet (transfer < 0). The amount is `abs(amount)`. Description and category are both the category; kind, date and currency are copied. A vault movement routes between the known account and the vault, in the default polarity. A positive transfer routes top-up → known account. A negative transfer routes known account → wallet. Everything else, zero transfers included, keeps the default polarity with the counter-party by name. The known account is always on one side. |
| Classifier.CardPaymentExample | firefly_traderepublic_transactions/firefly_traderepublic_transactions.py:53-119 | A card payment of −12.50 at "Shop" is a withdrawal with payload amount 12.50, `source_id` the known account and `destination_name` "Shop". |
| Classifier.VaultToCurrencyExample | firefly_traderepublic_transactions/firefly_traderepublic_transactions.py:80-99 | A vault movement labelled "To EUR" in EUR routes from the vault into the known account, whatever its kind. |
| Feed.Selected | firefly_traderepublic_transactions/firefly_traderepublic_transactions.py:137-139 | The filter keeps only records of the input that meet all three conditions: the configured currency or none configured; no vault, or amount < 0; state not `DECLINED`. |
| Feed.Insert | firefly_traderepublic_transactions/firefly_traderepublic_transactions.py:136 | Inserting adds exactly one record to the multiset of records. |
| Feed.SortByCreated | firefly_traderepublic_transactions/firefly_traderepublic_transactions.py:136 | Sorting permutes the feed. |
| Feed.InsertSorted | firefly_traderepublic_transactions/firefly_traderepublic_transactions.py:136 | Inserting into a list ordered by `createdDate` keeps it ordered. |
| Feed.SortByCreatedSorted | firefly_traderepublic_transactions/firefly_traderepublic_transactions.py:136 | The sorted feed ascends by `createdDate`. |
| Feed.InsertStable | firefly_traderepublic_transactions/firefly_traderepublic_transactions.py:136 | The inserted record goes before every record created at the same time. |
| Feed.SortStable | firefly_traderepublic_transactions/firefly_traderepublic_transactions.py:136 | Records with equal `createdDate` keep their feed order: the sort is stable. |
| Feed.SelectedWithCreated | firefly_traderepublic_transactions/firefly_traderepublic_transactions.py:136-139 | Filtering commutes with selecting the records of one timestamp. |
| Feed.SelectedCount | firefly_traderepublic_transactions/firefly_traderepublic_transactions.py:137-139 | A kept record occurs as often as in the input; a dropped one does not occur. |
| Feed.SelectedSorted | firefly_traderepublic_transactions/firefly_traderepublic_transactions.py:136-139 | Filtering an ordered list leaves it ordered. |
| Feed.SelectionOrder | firefly_traderepublic_transactions/firefly_traderepublic_transactions.py:135-151 | The list is drawn from exactly the input records that meet the three conditions, with multiplicity. It ascends by `createdDate`, and records with equal timestamps are in input order. |
| Feed.ClassifyAllOk | firefly_traderepublic_transactions/firefly_traderepublic_transactions.py:140-151 | The list is built exactly when every kept record classifies. It then holds their transactions one for one, in order. |
| Feed.ClassifyAllErr | firefly_traderepublic_transactions/firefly_traderepublic_transactions.py:140-151 | When the list is not built, the error is that of the first kept record that raises. |
| Feed.SelectedConcat | firefly_traderepublic_transactions/firefly_traderepublic_transactions.py:136-139 | The filter distributes over concatenation, record by record. |
| Feed.ClassifyAllConcat | firefly_traderepublic_transactions/firefly_traderepublic_transactions.py:140-151 | Classifying two lists in turn raises the first error, else joins the results. |
| Feed.BuildSkip | firefly_traderepublic_transactions/firefly_traderepublic_transactions.py:137-139 | A record that fails the conditions adds nothing to the list. |
| Feed.BuildAppend | firefly_traderepublic_transactions/firefly_traderepublic_transactions.py:140-151 | A kept record that classifies is appended to the list. |
| Feed.BuildRaise | firefly_traderepublic_transactions/firefly_traderepublic_transactions.py:140-151 | A kept record that raises makes the whole construction raise with its error. |
| Processor.Transactions.BuildList | firefly_traderepublic_transactions/firefly_traderepublic_transactions.py:135-151 | The constructor's loop over the sorted feed returns the classification of the filtered, sorted records, or the first error raised. |
| Processor.Transactions.Create | firefly_traderepublic_transactions/firefly_traderepublic_transactions.py:122-151 | Construction fails exactly when building the list raises. Otherwise the new object holds the built list and the configuration, the marker file is untouched, and nothing has been pushed. |
| Processor.Transactions.constructor | firefly_traderepublic_transactions/firefly_traderepublic_transactions.py:124-135 | Stores the configuration and the list; nothing pushed. |
| Processor.Transactions.Process | firefly_traderepublic_transactions/firefly_traderepublic_transactions.py:156-175 | It posts the payloads of the transactions after the first one carrying the stripped marker, in order, until a `get_json` raises. It returns that error, or none. After a pass that does not raise, the marker becomes `NewMarker`'s leg id when there is one. Otherwise, including every pass that raises, the marker file is untouched. |
| Processor.PushAllMeaning | firefly_traderepublic_transactions/firefly_traderepublic_transactions.py:161-165 | Pushing sends `get_json` of each transaction in order and stops at the first one that raises, with its error. It completes exactly when none does. |
| Processor.AfterIsSuffix | firefly_traderepublic_transactions/firefly_traderepublic_transactions.py:161-170 | What is pushed is a suffix of the list. |
| Processor.ResumeAfterMarker | firefly_traderepublic_transactions/firefly_traderepublic_transactions.py:157-175 | If the marker first occurs at transaction x, exactly the transactions after x are pushed, and x itself is not. The marker then moves to the last of them, or stays when x is last. |
| Processor.Bootstrap | firefly_traderepublic_transactions/firefly_traderepublic_transactions.py:166-175 | A marker that names no transaction pushes nothing. The marker moves to the last transaction's leg id, and is not written at all for an empty list. |
| Processor.NewMarkerIsLast | firefly_traderepublic_transactions/firefly_traderepublic_transactions.py:171-175 | Any marker written is the list's last leg id. Nothing is written exactly when the list is empty, or when the marker is found and nothing follows it. |
| Processor.MarkerNeverPushed | firefly_traderepublic_transactions/firefly_traderepublic_transactions.py:161-170 | With unique leg ids, the marked transaction is never among those pushed. |
| Processor.MarkedLast | firefly_traderepublic_transactions/firefly_traderepublic_transactions.py:161-170 | A marker on the last transaction, whose leg id occurs nowhere earlier, is found and leaves nothing to push. |
| Processor.RerunPushesNothing | firefly_traderepublic_transactions/firefly_traderepublic_transactions.py:156-175 | After a first pass that did not raise and wrote its new marker, rerunning on the unchanged list pushes nothing and writes nothing. This holds when the leg ids are unique and the last one, the only one written, survives a write and read-back of the marker file. |
| Processor.RerunFromLast | firefly_traderepublic_transactions/firefly_traderepublic_transactions.py:156-175 | With unique leg ids, a marker written on the last transaction that reads back unchanged is found at the end on the next pass: nothing is pushed and nothing is written. |
| Processor.RerunFromLastId | firefly_traderepublic_transactions/firefly_traderepublic_transactions.py:159-175 | With unique leg ids, the last leg id as marker is found on the last transaction, so nothing follows it to push and no marker is written. |
| Processor.RepostAfterRaise | firefly_traderepublic_transactions/firefly_traderepublic_transactions.py:160-175 | With a marker that reads back unchanged on the first transaction, a withdrawal next and then a positive transfer with no top-up account configured, the pass posts the withdrawal and then raises. The marker is left as it was, so the next pass posts the withdrawal again. |
| Processor.MarkerFirst | firefly_traderepublic_transactions/firefly_traderepublic_transactions.py:157-170 | A marker that reads back unchanged and sits on the first transaction leaves everything after it to push. |
| Processor.PushThenRaise | firefly_traderepublic_transactions/firefly_traderepublic_transactions.py:101-109 | A withdrawal's payload is built, and a positive transfer with no top-up account raises, so that pass sends one payload and then raises. |
| Processor.FoundConcat | firefly_traderepublic_transactions/firefly_traderepublic_transactions.py:161-170 | The marker occurs in a concatenation exactly when it occurs in one of the parts. |
| Processor.AfterConcat | firefly_traderepublic_transactions/firefly_traderepublic_transactions.py:161-170 | Once the marker has been seen, every later transaction is pushed. Before that, the prefix contributes nothing. |
| Processor.PushAllConcat | firefly_traderepublic_transactions/firefly_traderepublic_transactions.py:161-165 | Pushing two lists in turn stops at the first error, else sends both payload lists. |
| Processor.StepActive | firefly_traderepublic_transactions/firefly_traderepublic_transactions.py:162-165 | In active mode the current transaction is next to push. |
| Processor.StepPushOk | firefly_traderepublic_transactions/firefly_traderepublic_transactions.py:162-165 | In active mode, when get_json succeeds, its payload is appended and the current transaction becomes the last one pushed. |
| Processor.StepPushErr | firefly_traderepublic_transactions/firefly_traderepublic_transactions.py:162-163 | In active mode, when get_json raises, the whole pass raises with that error after the payloads already sent. |
| Processor.PushOneOk | firefly_traderepublic_transactions/firefly_traderepublic_transactions.py:163-164 | One more push whose get_json succeeds appends its payload. |
| Processor.PushOneErr | firefly_traderepublic_transactions/firefly_traderepublic_transactions.py:163 | One more push whose get_json raises ends the pass with its error, whatever follows. |
| Processor.StepSearching | firefly_traderepublic_transactions/firefly_traderepublic_transactions.py:166-170 | Before the marker is seen nothing is pushed. Mode switches exactly on the transaction carrying the marker. |
| MarkerStore.FirstLine | firefly_traderepublic_transactions/firefly_traderepublic_transactions.py:77 | The first line is the prefix of the text up to the first line end (`\n` or `\r`), and contains no line end. |
| MarkerStore.ReadLine | firefly_traderepublic_transactions/firefly_traderepublic_transactions.py:73-77 | `readline` on the text-mode file returns the first line, followed by `\n` when the text has a line end; universal newlines turn `\r`, `\n` and `\r\n` alike into `\n`. Without a line end it returns the whole text. |
| MarkerStore.ReadLineStrip | firefly_traderepublic_transactions/firefly_traderepublic_transactions.py:157 | Stripping what `readline` returns gives the same marker as stripping the first line without its line end. |
| MarkerStore.TrimStart | firefly_traderepublic_transactions/firefly_traderepublic_transactions.py:157 | Only leading whitespace is removed, and all of it. |
| MarkerStore.TrimEnd | firefly_traderepublic_transactions/firefly_traderepublic_transactions.py:157 | Only trailing whitespace is removed, and all of it. |
| MarkerStore.Strip | firefly_traderepublic_transactions/firefly_traderepublic_transactions.py:157 | The stripped marker neither starts nor ends with whitespace. A text with no surrounding whitespace is unchanged. |
| MarkerStore.StripRemovesOnlySpace | firefly_traderepublic_transactions/firefly_traderepublic_transactions.py:157 | The stripped text is a slice of the input, and only whitespace lies outside that slice. |
| MarkerStore.TrimStartCut | firefly_traderepublic_transactions/firefly_traderepublic_transactions.py:157 | The leading trim cuts the text at one point, with only whitespace before it. |
| MarkerStore.TrimEndCut | firefly_traderepublic_transactions/firefly_traderepublic_transactions.py:157 | The trailing trim cuts the text at one point, with only whitespace after it. |
| MarkerStore.TrimStartSnoc | firefly_traderepublic_transactions/firefly_traderepublic_transactions.py:157 | Trimming leading whitespace from a text with one whitespace character appended gives the trimmed text followed by that character, or the empty text when the text was all whitespace. |
| MarkerStore.StripSnocSpace | firefly_traderepublic_transactions/firefly_traderepublic_transactions.py:157 | Whitespace appended to the text does not change the stripped result. |
| MarkerStore.ReadMarkerClean | firefly_traderepublic_transactions/firefly_traderepublic_transactions.py:42-45 | A leg id written to the marker file reads back unchanged when it has no line end and no surrounding whitespace. |

## Left out

- Date formatting: `extract_date` uses `datetime.fromtimestamp` (local time zone) and
  `strftime`. The model copies `DayOf(createdDate)` into the payload as an opaque value.
  `fromtimestamp` raises `ValueError`, `OverflowError` or `OSError` for a timestamp outside
  the platform's range, so the constructor can raise outside `extract_type`; `DayOf` never
  fails, and the model does not reproduce that error.
- Amount objects: the feed's `amount` is a foreign object. The classifier reads it through
  `get_real_amount()`, and the filter compares the raw `amount` value with 0. Neither its
  type nor that method is part of this model. The model uses one signed integer for both.
- Marker file I/O: directory creation, opening, and read errors other than a missing file are
  not modelled. The `marker` field's text stands in for the file, and a missing file is `""`.
- HTTP push: `push_transaction` (POST with bearer-token headers to `push_url`, then printing
  the response) becomes appending the payload to the ghost `pushed` log. A failing POST is not
  modelled, so every push is taken to succeed. The headers and URL are not modelled.
- `FireflyTraderepublicClient`: login and timeline fetch are network I/O. Its `process` never
  uses the processor, and the CLI and package `__init__.py` are plumbing. None of them is
  part of this model.
- `__len__`: the number of transactions is `|list|`; no separate member.
- Missing dictionary keys: the source tests for absence only for `vault` and `merchant`.
  `category` is read with `.get` and may be `None`, which goes into the payload unchanged;
  the model carries it as an `Option`. `createdDate`, leg id, type, description, state,
  currency, amount and the merchant's `name` are taken to be present. A missing `createdDate`
  raises `KeyError` in the sort. A missing amount raises `AttributeError` at
  `get_real_amount()`, or `TypeError` in the filter's comparison. The other keys give `None`
  values. The model reproduces none of these.
- Sorting: Python raises on incomparable `createdDate` values. Here timestamps are integers.
