# diun2homer, modelled in Dafny

diun2homer is a small web service. It receives image-update notifications from
Diun, keeps each one as a row of an SQLite table `events`, and serves the rows
back as Homer dashboard "message" cards `{style, title, content}`, newest first.

The model has one module per part of `diun2homer.py`:

- `Style` (`style.dfy`): `get_homer_style`. It lower-cases the status (ASCII) and looks it
  up in the status table. An unknown status, the empty one included, gets `is-warning`.
- `Payload` (`payload.dfy`): the pydantic model `DiunPayload`. A raw request is a map from
  key to `Text(string)` or `Null`. Validation needs `status`, `image` and `message` as
  strings. An absent or null `platform` or `tag` becomes `None`. Any other key is kept
  as an extra attribute (`extra = "allow"`).
- `EventLog` (`event_log.dfy`): the `events` table as a class `Database`. It holds:
  - the rows in insertion order;
  - the AUTOINCREMENT counter `nextId`;
  - the clock behind `DEFAULT CURRENT_TIMESTAMP`;
  - whether `CREATE TABLE` has run.

  `InitDb` is `init_db` and `StoreDiunPayload` is `store_diun_payload`. `Select` is the
  query `ORDER BY timestamp DESC`, specified as a newest-first permutation of the rows.
- `Homer` (`homer.dfy`): `get_homer_messages`. Its loop turns each selected row into a card.
- `Webhook` (`webhook.dfy`): the handler `diun`. GET query parameters and a POSTed JSON
  object go through the same validation. A row is stored only after validation
  succeeds, and the reply is then `{"status": "success"}`. Two client methods,
  `PostThenList` and `GetWithoutOptionals`, replay a POSTed update and a GET error
  notification end to end.

Environment inputs are parameters:
- The time that passes before an insert is the `elapsed` argument of `StoreDiunPayload`
  and `Diun`. Because `elapsed` is a natural number, the model's clock never goes back.
  This is an assumption about the environment, not something the code ensures (see
  "## Left out").
- A timestamp is a tick count. A card writes it in decimal, in place of SQLite's
  `YYYY-MM-DD HH:MM:SS` text.

Behaviour worth knowing, which the model follows from the code:
- Empty strings are valid for `status`, `image` and `message`. Pydantic's `str` checks
  only the type, not that the string is non-empty.
- The handler re-raises every exception. A failed validation therefore reaches the
  client as a server error, not a 4xx. The model returns `Raised(fault)` in that case.
- `ORDER BY timestamp DESC` fixes no order among rows with equal timestamps, and SQLite
  timestamps have one-second resolution. The model's `Select` promises only a
  newest-first permutation. Its insertion sort picks one admissible order.

## Model

| member | source | states |
|---|---|---|
| `Style.LowerChar` | diun2homer.py:81 | an upper-case ASCII letter becomes the matching lower-case letter, any other character is kept, and the result is never an upper-case letter |
| `Style.Lower` | diun2homer.py:81 | `status.lower()` on ASCII: same length, and each character lower-cased on its own |
| `Style.LowerIdempotent` | diun2homer.py:81 | lower-casing an already lower-cased status changes nothing |
| `Style.HomerStyle` | diun2homer.py:75-83 | the result is always one of the four tokens. It is `is-info`, `is-success` or `is-danger` exactly when the status equals `new`, `update` or `error` ignoring case, and `is-warning` exactly when it matches none of them |
| `Style.StyleIgnoresCase` | diun2homer.py:81 | two statuses that differ only in letter case get the same style |
| `Style.StyleOfLower` | diun2homer.py:81 | the style of a status equals the style of its lower-cased form |
| `Style.StyleExamples` | diun2homer.py:76-81 | `new` and `NEW` map to `is-info`, `update` and `Update` to `is-success`, `error` to `is-danger`, `banana` and the empty status to `is-warning` |
| `Payload.Invalid` | diun2homer.py:65-69 | the reported fields are exactly the required fields that are absent or null |
| `Payload.Parse` | diun2homer.py:64-72 | validation succeeds exactly when status, image and message are strings. On success the fields are taken from the request, an absent or null platform or tag is `None`, and the extras are the other keys. On failure it names exactly the missing or null required fields |
| `Payload.ExtraKeyIgnored` | diun2homer.py:71-72 | adding an unknown key neither makes validation fail nor changes the five fields; the key only joins the extras |
| `Payload.MissingImageRejected` | diun2homer.py:66 | a request without `image` is rejected and the error names `image` |
| `EventLog.Insert` | diun2homer.py:118 | inserting a row into a listing adds that row to the listing's multiset and nothing else |
| `EventLog.InsertSorted` | diun2homer.py:118 | inserting into a newest-first listing keeps it newest-first |
| `EventLog.SortByTimestampDesc` | diun2homer.py:118 | `ORDER BY timestamp DESC` returns a permutation of the rows whose timestamps never increase |
| `EventLog.NewestFirst` | diun2homer.py:53 | a row no older than every other row is listed, and the first listed row has its timestamp |
| `EventLog.Database.constructor` | diun2homer.py:37 | a database file before `init_db`: no table, no rows, counter at 1 |
| `EventLog.Database.InitDb` | diun2homer.py:40-61 | afterwards the table exists. Rows, counter and clock are unchanged, so running it again changes nothing |
| `EventLog.Database.StoreDiunPayload` | diun2homer.py:86-110 | with the table, exactly one row is appended. It carries the payload's image, status, platform, tag and message, the next id and the clock's time. Earlier rows stay unchanged and in order. The new id exceeds every earlier id and the new timestamp is at least every earlier one. The new row is listed, and the listing starts at its timestamp. Without the table nothing is stored |
| `EventLog.Database.Select` | diun2homer.py:118-119 | the selected rows are a permutation of the table with non-increasing timestamps |
| `Homer.FormatTimestamp` | diun2homer.py:128 | a timestamp is written as a non-empty string of decimal digits with no leading zero |
| `Homer.FormatTimestampRoundTrip` | diun2homer.py:128 | reading the written timestamp back as a decimal number gives the timestamp |
| `Homer.CardOf` | diun2homer.py:124-129 | a row's card has the style of the row's status (one of the four tokens), the row's image as title, and a content made of the row's message, then ` (`, then digits that read back as the row's timestamp, then `)` |
| `Homer.CardIgnoresPlatformAndTag` | diun2homer.py:124-129 | a card does not depend on a row's platform or tag, and its style is one of the four tokens |
| `Homer.GetHomerMessages` | diun2homer.py:113-139 | without the table the query fails. Otherwise there is one card per row, in the selected newest-first order. card i is the card of the i-th selected row (see `Homer.CardOf`) |
| `Webhook.PayloadOf` | diun2homer.py:148-154 | a body that is not a JSON object raises before validation. A POSTed object is accepted exactly when status, image and message are strings in it. A GET is accepted exactly when those three are among its parameters. Either way the payload's status, image and message are the request's, and a validation fault names only required fields |
| `Webhook.GetAndPostAgree` | diun2homer.py:148-154 | a query string and a JSON object holding the same strings build the same payload or the same error |
| `Webhook.GetAcceptedIff` | diun2homer.py:150-151 | a GET request is accepted exactly when status, image and message are among its parameters. A missing platform or tag becomes `None` |
| `Webhook.UpdateBodyParses` | diun2homer.py:152-154 | the POSTed body `{"status":"update","image":"nginx:latest","message":"new tag found"}` gives a payload with no platform, no tag and no extras |
| `Webhook.ErrorQueryParses` | diun2homer.py:148-151 | the query `status=error&image=redis&message=pull failed` gives a payload with no platform and no tag |
| `Webhook.UpdateCard` | diun2homer.py:125-129 | the stored update notification renders as an `is-success` card titled `nginx:latest` with content `new tag found (7)` |
| `Webhook.Diun` | diun2homer.py:143-168 | an invalid request raises the validation fault and leaves the database unchanged. A valid one stores exactly one row built from the payload and replies `{"status": "success"}`. Without the table the store fault is raised and no row is added |

## Left out

- FastAPI routing, the `Request` object, the async `lifespan` and `uvicorn.run`: framework plumbing. The model's `Request` carries only the method and the query parameters or body.
- Logging, the `DEBUG` environment flag and every `logger` call: they have no effect on results.
- `sqlite3` connections, commits, closes and SQL text. The table is an in-memory sequence. Failures other than a missing table, such as I/O errors, a locked file or an exhausted AUTOINCREMENT counter, are not modelled.
- The `/health` endpoint: it only checks that a connection can be opened, which is a call into SQLite.
- The `/homer` endpoint: it only forwards the result of `get_homer_messages`.
- A clock that goes back: `DEFAULT CURRENT_TIMESTAMP` reads the system clock, which can be set back. The model assumes it never is. The newest-first facts depend on that assumption: the timestamp part of `Database.Valid`, `NewestFirst`, and the clause of `StoreDiunPayload` that puts the new row's timestamp at the head of the listing. With a clock set back, a newer row would be listed below older ones.
- Wall-clock time and SQLite's timestamp text: the clock is an abstract tick count, written in decimal.
- `str.lower` on non-ASCII letters: only `A`-`Z` are lower-cased.
- Pydantic coercion: request values are strings or null. Numbers, booleans and nested JSON values are not modelled. An absent `Optional` field is taken to default to `None`, as in pydantic 1. Pydantic 2 would reject a request without `platform` or `tag`.
- A body that is not valid JSON at all is treated like a JSON value that is not an object: both raise before validation.
- Concurrent requests and SQLite's serialisation of writers.
- `EventLog.Database.Select`: it does not fix the order among rows with equal timestamps, because the query does not either.
