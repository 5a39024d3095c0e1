# EZBuy tracking list, modelled in Dafny

EZBuy is a Messenger chat bot that lets a client track up to nine second-hand
items. The webhook handler (`handleIncomingPostEvents`) routes each incoming
messaging event in this order:

- a postback button: get started, help, or "my tracking list";
- a tapped quick reply, which removes items from the list;
- typed text, which becomes an item name to add.

Each client has one document in a MongoDB collection, holding the client's
display name and the tracked item names.

This project models that core:

- the three list operations: `addToShoppingCart`, `showShoppingCart` and `removeFromShoppingCart`;
- the `ITEM_NUM_LIMIT` of nine;
- the canned `ReplyTemplate` texts and the three usual buttons;
- the payload parse `int(payload.split(',')[-1])`;
- the dispatch decision of the webhook handler.

## Modules

| file | module | contents |
|---|---|---|
| `wrappers.dfy` | `Wrappers` | `Option` and `Result` |
| `numerals.dfy` | `Numerals` | Python's `'{}'.format(n)` for integers, `int(s)` for ASCII text, and `s.split(sep)[-1]` |
| `replies.dfy` | `Replies` | the reply templates, the button group and the reply values that stand for the SDK's send calls |
| `carts.dfy` | `Carts` | one client's document, and what add, show and remove do to it and answer, as functions with their properties |
| `server.dfy` | `Server` | the collection as the class `Store` (a `map` from client id to document), with the three operations and the webhook handler as methods |

The `Server` functions `Classify`, `Perform` and `Respond` state what the handler does to the whole store.

Add and remove update the store step by step, so they are methods that modify `Store.docs`. Each method's contract ties the new store and its reply to the value-level function in `Carts` (`Add`, `Remove`), and the properties are proved about those functions.

`showShoppingCart` builds its listing in a loop. `Store.ShowShoppingCart` keeps that loop, and its invariants show that the result equals `Show`.

How the model follows the code where the behaviour is not obvious:

- **Removing by position.**
  - Looking up the document and the entry at the position is not checked in the source. A missing document or a position past the end raises there.
  - `Remove` and `Store.RemoveFromShoppingCart` require both to exist.
  - The handler returns `Err(NoRecord)` or `Err(IndexOutOfRange)` in those cases and leaves the store unchanged. It does not turn them into no-ops.
- **"Remove all" for a client without a document.** `find_one_and_update` is called without upsert, so nothing is written, but the REMOVE_ALL text is still sent.
- **Selectors below -2.** They write nothing and send no reply. Only -2 is answered, with REMOVE_NONE.
- **The capacity check.** It compares the count with `==` against nine, as the source does. Duplicates never arise: every add and remove keeps each document at no more than nine entries with no name twice (`AddKeepsWellFormed`, `RemoveKeepsWellFormed`, `Store.Valid`). So that `==` check is enough for documents this server writes.
- **Parse failures.** A quick-reply payload whose last comma-separated field is not an integer makes `int()` raise; that is `Err(BadPayload)`.
- **The store starts empty.** `Store`'s constructor stands for a fresh deployment. The source opens a persistent collection that may already hold documents. Documents written by other means fall outside the well-formedness invariant that the `== 9` argument relies on.
- **A missing `message`.** An event with neither a postback nor a message raises `KeyError`; that is `Err(NoMessage)`.

## Model

| member | source | states |
|---|---|---|
| Numerals.NatToString | chatbot/server.py:139-140 | the decimal text of a count is non-empty, all digits, and has no leading zero |
| Numerals.IntToString | chatbot/server.py:140 | the decimal text of a selector has no surrounding whitespace, starts with '-' exactly for negatives, and is otherwise digits |
| Numerals.TrimStart | chatbot/server.py:212 | `int()` drops only leading whitespace: the result is a suffix, does not start with whitespace, and everything dropped is whitespace |
| Numerals.TrimEnd | chatbot/server.py:212 | `int()` drops only trailing whitespace: the result is a prefix, does not end with whitespace, and everything dropped is whitespace |
| Numerals.LastField | chatbot/server.py:212 | `split(',')[-1]` is a suffix containing no separator, and it is preceded by the separator unless it is the whole text |
| Numerals.ParseInt | chatbot/server.py:212 | `int()` strips surrounding ASCII whitespace and parses an optional sign and a digit run; `ParseIntOfIntToString` and `ParseIntIgnoresSpaces` state what it reads back |
| Numerals.ParseIntIgnoresSpaces | chatbot/server.py:212 | whitespace before and after the number is ignored: `int(ws + str(i) + ws') == i` for every integer `i` |
| Numerals.TrimStartSpaces | chatbot/server.py:212 | leading whitespace is removed up to the first character that is not whitespace, and nothing after it |
| Numerals.TrimEndSpaces | chatbot/server.py:212 | trailing whitespace is removed back to the last character that is not whitespace, and nothing before it |
| Numerals.DigitsValueOfNatToString | chatbot/server.py:139-140 | reading back the digits written for `n` gives `n` |
| Numerals.ParseIntOfIntToString | chatbot/server.py:212 | `int(str(i)) == i` for every integer `i` |
| Numerals.LastFieldAfterSeparator | chatbot/server.py:212 | the last field of `prefix + ',' + field` is `field` whenever `field` holds no comma |
| Replies.Text | chatbot/server.py:41-51 | the canned `ReplyTemplate` texts, with item name and count filled in; `AddSuccessMentions` and `RemovedOneMentions` state what the formatted texts carry |
| Replies.AddSuccessMentions | chatbot/server.py:43 | the ADD_TO_CART_SUCCESS text names the item and shows "n/9" |
| Replies.RemovedOneMentions | chatbot/server.py:49 | the REMOVE_ONE_FROM_CART text names the removed item |
| Carts.AddToSet | chatbot/server.py:107-110 | `$addToSet` keeps the old list as a prefix, contains the item, grows by at most one, and keeps its length exactly when the item was present |
| Carts.Pull | chatbot/server.py:151-153 | `$pull` leaves no entry equal to the item and never grows the list |
| Carts.PullCounts | chatbot/server.py:151-154 | `$pull` removes every copy of the item and keeps every copy of every other item |
| Carts.PullConcat | chatbot/server.py:151-154 | `$pull` works entry by entry: on a concatenation it pulls from each part and keeps the relative order |
| Carts.PullAbsent | chatbot/server.py:151-154 | pulling an item that is not there leaves the list unchanged |
| Carts.Add | chatbot/server.py:83-122 | FULL exactly when an existing document holds nine items, and then the document is unchanged; otherwise the name is overwritten and the list becomes `$addToSet` of the item; EXISTED exactly when the item was already tracked, SUCCESS exactly when it was not, carrying the new count |
| Carts.AddToNewClient | chatbot/server.py:92-121 | a client without a document gets one holding exactly the item, answered SUCCESS with count 1; adding the same item again keeps one entry and answers EXISTED |
| Carts.AddAppendsNewItem | chatbot/server.py:103-121 | below nine items, a new item is appended at the end and the reply carries the old count plus one |
| Carts.AddExistingItem | chatbot/server.py:105-119 | below nine items, a tracked item leaves the list as it was, overwrites the name and answers EXISTED |
| Carts.AddKeepsWellFormed | chatbot/server.py:102-115 | adding never takes a document past nine items and never tracks a name twice |
| Carts.AddIdempotent | chatbot/server.py:102-119 | adding the same item twice in a row changes nothing the second time, which is answered FULL or EXISTED |
| Carts.AddEachDistinct | chatbot/server.py:83-122 | distinct items that fit under nine are all tracked, in the order they were added |
| Carts.AddEachStepSucceeds | chatbot/server.py:117-121 | when distinct items that fit under nine are added in turn, the `k`-th add is answered SUCCESS with that item and the count `old + k + 1` |
| Carts.AddEach | chatbot/server.py:83-122 | one client adding several items in turn; `AddEachDistinct` and `FillThenFull` state its outcome |
| Carts.FillThenFull | chatbot/server.py:102-104 | nine distinct adds fill a new client's list; a tenth add answers FULL and changes nothing |
| Carts.Lines | chatbot/server.py:138-139 | the listing line of each item, numbered from one; `ListingLine` states where each sits in the listing text |
| Carts.ItemOptions | chatbot/server.py:138-140 | one removal quick reply per item position; `ShowOptions` and `ShowOptionsRoundTrip` state their payloads and what those parse back to |
| Carts.RemovePayload | chatbot/server.py:140-141 | the quick-reply payload `REMOVE_ITEM,{selector}`; `RemovePayloadRoundTrip` proves it parses back to the selector |
| Carts.Line | chatbot/server.py:139 | listing line `"{k}. {item}\n"`; `ListingLine` places it in the listing text |
| Carts.ItemOption | chatbot/server.py:140 | the quick reply `第{idx+1}項` that removes position `idx`; `ShowOptions` and `ShowOptionsRoundTrip` state its payload and what it parses to |
| Carts.Concat | chatbot/server.py:137-139 | the listing lines appended one after the other; `ConcatAppend` and `ConcatAt` state how lines sit in the text |
| Carts.ConcatAppend | chatbot/server.py:137-139 | appending lines one after the other gives the same text as joining the lists of lines |
| Carts.Show | chatbot/server.py:124-142 | the reply is the SHOW_CART_EMPTY text exactly when the client has no document or an empty list, and a listing with quick replies otherwise |
| Carts.ShowOptions | chatbot/server.py:131-141 | an empty list gives SHOW_CART_EMPTY; a list of `n` items gives `n + 2` quick replies, with payloads `REMOVE_ITEM,k` for each `k < n`, then `REMOVE_ITEM,-1` and `REMOVE_ITEM,-2` |
| Carts.ConcatAt | chatbot/server.py:137-139 | in the joined listing, line `i` comes right after lines `0..i-1` and right before the rest |
| Carts.ListingLine | chatbot/server.py:137-139 | for every `1 <= k <= n`, the listing text holds `"k. item_k\n"` right after the head and lines 1 to k-1 |
| Carts.Remove | chatbot/server.py:144-165 | a selector `>= 0` answers REMOVE_ONE with the name at that position, and the list becomes `$pull` of that name: every copy goes, every other entry stays, in its order; -1 empties the list and answers REMOVE_ALL; below -1 the document is unchanged, and a reply, REMOVE_NONE, is sent only for -2; a document's presence and name are never changed |
| Carts.RemoveAtUnique | chatbot/server.py:146-154 | in a list without duplicates, removing position `idx` drops exactly that entry and keeps the rest in their original order |
| Carts.PullUnique | chatbot/server.py:149-153 | pulling a name that occurs only at `idx` removes exactly position `idx` |
| Carts.RemoveKeepsWellFormed | chatbot/server.py:144-165 | every removal keeps a document at no more than nine entries with no name twice |
| Carts.ClearThenShowEmpty | chatbot/server.py:157-163 | after "remove all", listing the cart gives the EMPTY text |
| Server.Put | chatbot/server.py:150-161 | writing the client's document changes that client's entry and no other |
| Server.Lookup | chatbot/server.py:129-130 | `find_one` by client id; `Put` states the read-after-write laws that relate it to writing a document |
| Server.ParsePayload | chatbot/server.py:212 | `int(payload.split(',')[-1])`; `RemovePayloadRoundTrip` proves every `REMOVE_ITEM,{i}` payload parses back to `i` |
| Server.Classify | chatbot/server.py:193-224 | the handler's branch for an event; `PostbackFirst`, `QuickReplyBeforeText` and `TextMeansAdd` state its precedence both ways |
| Server.Perform | chatbot/server.py:193-224 | runs the chosen operation on the store, and turns the source's exceptions into `Err`; `RespondFrame` and `RespondKeepsWellFormed` state what it may change |
| Server.Respond | chatbot/server.py:178-226 | the handler from event to new store and reply; `RespondFrame`, `RespondKeepsWellFormed`, `RespondRemoves`, `RespondText` and `RespondShowButton` state its behaviour |
| Server.PostbackFirst | chatbot/server.py:193-206 | a postback wins over any message; GET_STARTED, SHOW_HELP and SHOW_SHOPPING_CART each select their action exactly, and any other payload is ignored |
| Server.QuickReplyBeforeText | chatbot/server.py:210-213 | without a postback, a tapped quick reply wins over text: its last comma-separated field is parsed into a removal selector, or the request aborts |
| Server.TextMeansAdd | chatbot/server.py:217-223 | text becomes an add of exactly that text as the item name if and only if there is no postback and no quick reply |
| Server.RespondFrame | chatbot/server.py:193-224 | handling an event changes at most the sender's document; postbacks and aborted requests change nothing |
| Server.RemovePayloadRoundTrip | chatbot/server.py:212 | the payload `REMOVE_ITEM,{i}` written at line 140 parses back to `i`, for every integer `i` |
| Server.ShowOptionsRoundTrip | chatbot/server.py:136-141 | every quick reply of a listing parses back to the selector it stands for: its position, -1 for "all", -2 for "none" |
| Server.RespondRemoves | chatbot/server.py:210-213 | an event read as removal selector `i` runs the removal with `i` on the sender's document and writes the result back |
| Server.TapRemoves | chatbot/server.py:210-213 | tapping option `k` of the sender's listing removes by the selector that option stands for |
| Server.TapItemOption | chatbot/server.py:144-156 | tapping the option for item `k` pulls that item's name from the sender's list and answers REMOVE_ONE with it |
| Server.TapAllOption | chatbot/server.py:157-163 | tapping "all" empties the sender's list and answers REMOVE_ALL |
| Server.TapNoneOption | chatbot/server.py:164-165 | tapping "none" leaves the store as it was and answers REMOVE_NONE |
| Server.RemoveNegativeKeepsStore | chatbot/server.py:164-165 | a selector below -1 leaves the whole store as it was; only -2 is answered |
| Server.ButtonGroupRoutes | chatbot/server.py:52-56 | the two postback buttons under every canned text lead to the listing and the help text |
| Server.RespondKeepsWellFormed | chatbot/server.py:193-224 | handling any event keeps every document at no more than nine entries with no name twice |
| Server.RespondText | chatbot/server.py:217-223 | typed text alone adds that text for the sender and answers with the add's reply |
| Server.RespondShowButton | chatbot/server.py:203-206 | the list button answers with the sender's listing and changes nothing |
| Server.ShoesListing | chatbot/server.py:136-141 | a list holding only "shoes" is shown as `1. shoes`, with the options for item 1, "all" and "none" |
| Server.ShoesScenario | chatbot/server.py:83-224 | a new client who types "shoes", opens the list, taps option 1 and opens the list again gets SUCCESS with count 1, the one-line listing, REMOVE_ONE "shoes" and then EMPTY |
| Server.Store.constructor | chatbot/server.py:35 | the collection starts with no documents, so every document in it is well-formed |
| Server.Store.AddToShoppingCart | chatbot/server.py:83-122 | the store afterwards holds the client's document as `Add` gives it, the reply is `Add`'s, and the store stays well-formed |
| Server.Store.ShowShoppingCart | chatbot/server.py:124-142 | the listing built line by line in the loop, and its options, are exactly `Show` of the client's document |
| Server.Store.RemoveFromShoppingCart | chatbot/server.py:144-165 | needs a document and an in-range position when the selector is `>= 0`; the store afterwards holds `Remove`'s document, the reply is `Remove`'s, and the store stays well-formed |
| Server.Store.HandleIncomingPostEvent | chatbot/server.py:193-224 | the store afterwards and the result are `Respond`'s, and the store stays well-formed |

## Left out

- Flask routes, the GET verify-token handshake, the TLS context, config and credential loading, and the `MongoClient` connection: these are setup and I/O.
- The Graph API request for the sender's profile name becomes the `clientName` parameter. `send_typing_status` has no effect on the state and is left out.
- The `bot.send_*` calls become returned `Reply` values. `Result`'s `Ok(None)` means nothing is sent.
- `print` and `pprint` logging.
- The `posts_notified` field of a document, which the cart logic never reads.
- The document's `_id` object id. It is read (chatbot/server.py lines 105 and 148) only to address the follow-up update to the document just found by client id. With one document per client id, that is the document the client id names, so the store is keyed by client id.
- Only the first messaging event of a request body (`entry[0].messaging[0]`, chatbot/server.py line 180) is handled. `Event` stands for that event. Further batched entries or events are ignored. A body without that first entry raises before any dispatch, and the model does not express it.
- Items are stored as `{'item': name}` entries; the model keeps only the names.
- Concurrency. The source reads a document and then updates it in a second call, without atomicity. The model handles one event at a time. So it does not capture two adds for the same client racing past the limit, or a document that disappears between the two calls.
- Storage failures, which propagate as exceptions in the source.
- `Numerals.ParseInt` accepts only ASCII digits and ASCII whitespace. Python's `int()` also accepts other Unicode decimal digits and whitespace.
- An event whose postback has no `payload` key, or whose quick reply has no `payload`, raises `KeyError` in the source. In `Event` a postback or quick reply always carries its payload, so these cases cannot be expressed.
- good/good_module.js is not part of this model. It holds asynchronous database callbacks that match posts against tracked items.
