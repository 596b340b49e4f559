# Text-to-speech chat bot: voice list, retries and selection

A Dafny model of the logic inside a Telegram bot that speaks user text through
a third-party text-to-speech service. The bot lists the service's voices as
pages of inline buttons. A user picks a voice with a button. Every later text
message from that user is synthesised with that voice, or with the configured
default voice when there is no pick.

The model covers two source files.

- `voice.py` is the speech-service client. Module `Retry` holds the shared
  attempt schedule: four attempts, with 0, 0.5, 1 and 2 seconds of sleep
  before them. It also holds the classification of each outcome: a 429, a 5xx
  or a transport error retries, and any other status error ends the loop.
  Module `VoiceClient` holds the rest of the client:
  - the voice records and their normalisation;
  - the ten-minute voice-list cache, modelled as a class with fields `value`
    and `ts`;
  - `get_voices`, with its cache hit, its fallback to the single default voice
    and its rule that a failure is not cached;
  - `synthesize_speech`, with its local text check (1 to 5000 characters) and
    its single user-facing error.
- `main.py` is the dispatcher. Module `Bot` holds:
  - `_paginate_buttons` as a method that builds the rows. It is proved against
    Python's slicing and the `max(1, ceil(n/size))` page count. Lemmas show
    that the pages rebuild the list and that every button's payload parses back
    to what the button means.
  - The callback payload branches: `page:`, `refresh` and `pick:`.
  - The per-user pick table, modelled as a class with a `map<int, string>` field.
  - The voice resolution used for text messages.

Module `Decimal` models the decimal text written by `f"page:{n}"` and read back
by `int(...)`. Module `Wrappers` holds Option and Result.

The outside world comes in as parameters:
- The network is a function `network: nat -> Outcome<T>`. It gives the outcome
  of attempt k: a success with its body, a status error with its code, or a
  transport error.
- The clock is an integer number of milliseconds. The TTL of 600 s is
  600000 ms, and the sleeps are 0, 500, 1000 and 2000 ms. The drivers return
  the sleeps they would perform (`slept`) instead of sleeping.
- `get_voices` reads the clock twice: once to check the cache (`now`) and once
  when it stores a fresh list (`storedAt`).

The model follows the code in four places where a looser description of the bot would differ:
- Only 429 and 5xx status errors retry. Every other status error ends the loop, including
  redirects and other non-2xx answers, not only other 4xx errors (voice.py:101-108).
- A stored pick that is the empty string also falls back to the default voice (main.py:104).
- Normalised voices carry no labels (None) when the raw labels are empty. Only the default voice
  carries an empty label map (voice.py:90, 94).
- A negative page from a forged `page:` payload is sliced with Python's negative-index rules.
  Its "next" button points at page+1 whenever page+1 < total_pages (main.py:30, 40).

## Model

| member | source | states |
|---|---|---|
| `Decimal.ParseInt` | main.py:75 | `int(...)` of the `page:` payload succeeds exactly on an optional sign followed by at least one digit, a leading minus gives a value of at most 0, and the value's magnitude is the decimal value of the digits after any sign (leading zeros allowed) |
| `Decimal.NatToStringValue` | main.py:39-41 | the digits written for a natural number read back as that number |
| `Decimal.IntToStringRoundTrip` | main.py:39-41 | parsing the decimal text of any integer, as written into a `page:` payload, gives that integer back |
| `Decimal.IntToStringInjective` | main.py:39-41 | different page numbers get different payload texts |
| `Retry.Retryable` | voice.py:98-112 | a 429, a 5xx status or a transport error moves on to the next attempt; a success and every other status error do not |
| `Retry.Drive` | voice.py:73-112 | a run of attempts makes between 1 and 4 attempts; every attempt but the last was a 429, 5xx or transport error; the run stops early only on a success or another status error; it reports the outcome of its last attempt |
| `Retry.DriveStopsAt` | voice.py:98-112 | the run ends at attempt i, with i+1 attempts consumed, whenever all earlier attempts were retryable and attempt i is not (or is the fourth) |
| `Retry.RateLimitedThenSuccess` | voice.py:153-162 | three 429 answers followed by a success deliver that success on the fourth attempt |
| `Retry.ClientErrorStopsAtOnce` | voice.py:163-170 | a status error other than 429 and 5xx on the first attempt ends the run after one attempt |
| `Retry.BackoffsIncrease` | voice.py:71-75 | no sleep before the first attempt; the sleeps before attempts 2 to 4 are positive and strictly increase |
| `Retry.RunAttempts` | voice.py:146-174 | the retry loop, with its `continue`/`break`/`return` exits, ends exactly as `Drive` says; it sleeps the schedule's delays before attempts 2 up to the last one made, in increasing order |
| `VoiceClient.Items` | voice.py:84 | the record list is the non-empty list under "voices", else the non-empty list under "data", else empty |
| `VoiceClient.Normalize` | voice.py:87-91 | the normalised id is non-empty iff `voice_id` or `id` is, and is `voice_id` when that is non-empty; a falsy `voice_id` gives the `id` field as is; the name is the raw name when it is non-empty and "Unnamed" otherwise; labels are kept only when non-empty |
| `VoiceClient.NormalizeVoices` | voice.py:85-91 | one normalised voice per raw record, same length, same order |
| `VoiceClient.VoicesCache.constructor` | voice.py:28-32 | a new cache holds nothing |
| `VoiceClient.VoicesCache.Get` | voice.py:34-39 | the stored list is returned iff one is stored and no more than the TTL has passed since it was stored; otherwise nothing |
| `VoiceClient.VoicesCache.Set` | voice.py:41-43 | stores the list with the current time; a lookup up to the TTL later returns that list, and any later lookup returns nothing |
| `VoiceClient.GetVoices` | voice.py:61-116 | result never empty. A fresh cache hit returns the cached list with no attempt and no change. Otherwise it makes exactly `Drive`'s attempts. On success it returns and caches the normalised records, or the single default voice when there are none. On failure it returns the single default voice and leaves the cache unchanged |
| `VoiceClient.SynthesizeSpeech` | voice.py:119-177 | empty text and text over 5000 characters fail with InvalidInput and no attempt; text of 1 to 5000 characters makes exactly `Drive`'s attempts and returns the body of the successful one, or the fixed service-unavailable message |
| `Bot.SliceBound` | main.py:30 | Python's slice bound: a non-negative bound clamped to the length, a negative one counted from the end and clamped at 0 |
| `Bot.PageSlice` | main.py:28-30 | a page holds at most `page_size` voices; from page 0 on it is exactly the voices at positions `page*size` to `page*size+size` that exist, and empty once it starts past the end |
| `Bot.TotalPages` | main.py:36 | the page count is at least 1, the pages hold all voices, and one page fewer would not (unless the count is 1) |
| `Bot.TotalPagesIsLeast` | main.py:36 | no positive page count smaller than `total_pages` holds all the voices |
| `Bot.PaginateButtons` | main.py:27-44 | one row with one pick button per voice of the page, in order; then the navigation row, which ends with "refresh", holds a "previous" button to page-1 iff page > 0 (first when present), and a "next" button to page+1 iff page+1 < total_pages; returns `total_pages` |
| `Bot.PickButton` | main.py:33-34 | a voice's button is labelled with its name when the name is non-empty, else with its id; its payload is "pick:" followed by the f-string text of the id ("None" for a missing id) |
| `Bot.PageToShow` | main.py:74-83 | which page a press makes the bot show: the page a `page:` payload names (nothing when `int()` fails), page 0 on refresh, none otherwise |
| `Bot.NavButtonShowsTarget` | main.py:39-41 | pressing a "previous" or "next" button shows exactly the page that button was built for |
| `Bot.RefreshButtonShowsFirstPage` | main.py:81-83 | pressing "refresh" shows page 0 again |
| `Bot.PickButtonShowsNoPage` | main.py:91-96 | pressing a voice's pick button shows no page; it only records the pick |
| `Bot.VoiceKeyboard` | main.py:49 | the keyboard sent with the default page size of 8 has at most nine rows: the page's pick rows in order, then the navigation row ending with "refresh" |
| `Bot.PagesBeforeIsPrefix` | main.py:28-30 | pages 0 to k-1 concatenated are the first `k*page_size` voices |
| `Bot.PagesRebuildList` | main.py:28-36 | pages 0 to total_pages-1 concatenated give back the whole voice list |
| `Bot.PageHasVoicesIffInRange` | main.py:28-41 | for a non-empty list, a page from 0 on has voices iff it is below `total_pages` |
| `Bot.AfterFirstColonOfPrefix` | main.py:92 | `split(":", 1)[1]` of a payload whose prefix ends at its first colon is everything after the prefix |
| `Bot.ParseCallback` | main.py:73-96 | a payload is a page request iff it starts with "page:", a refresh iff it is "refresh", a pick iff it starts with "pick:" (and is not one of the earlier forms); a page request carries `int()` of the text after "page:", a pick the text after "pick:" |
| `Bot.PageButtonRoundTrip` | main.py:39-41 | a navigation button's payload asks for exactly the page it was built for |
| `Bot.RefreshButtonRoundTrip` | main.py:42 | the refresh button's payload is read as a refresh |
| `Bot.PickButtonRoundTrip` | main.py:33-34 | a voice's pick button carries its id (rendered as by the f-string), even an id containing colons |
| `Bot.ResolveVoice` | main.py:104 | the voice used for a message is the user's stored pick when it is present and non-empty, and the default when it is missing or empty |
| `Bot.ResolveAfterSelect` | main.py:91-94 | after a pick, the user's messages use the picked id, or the default when the pick is empty |
| `Bot.SelectKeepsOthers` | main.py:94 | a pick by one user does not change which voice any other user gets |
| `Bot.PickButtonSelectsVoice` | main.py:33-34 | pressing the pick button of a voice with a non-empty id makes that id the user's voice |
| `Bot.UserState.constructor` | main.py:24 | the pick table starts empty |
| `Bot.UserState.OnCallback` | main.py:68-96 | a missing payload reads as ""; a `pick:` payload overwrites the user's entry with the text after the first colon and leaves every other entry alone; no other payload changes the table |

## Left out

- Telegram transport is not modelled: replies, message edits, `answer()`, the command handlers, the
  handler registration and polling in `main_async` (main.py:47-66, 78, 85-89, 95, 106-180).
  They are I/O against a library this model cannot see.
- `on_text` is modelled only through the voice resolution at main.py:104. The fallback of a
  missing sender to user 0 (main.py:100) and the choice of reply after synthesis are I/O.
- The HTTP layer is replaced by the outcome function `network`: clients, headers, URLs, the request
  payload constants (voice.py:49-58, 132-152), JSON decoding and `raise_for_status`. A
  `Status(code)` outcome stands for the 429 answer or the status error that `raise_for_status`
  raises. An exception that escapes the loop, such as a JSON parse error, is not modelled.
- Raw voice fields are modelled as optional strings and an optional string map. JSON values of
  other types in those fields are not modelled.
- `time.time()` and `time.sleep` are not modelled. The clock is an integer millisecond parameter,
  and sleeps are returned as a list of delays. Sub-millisecond float timestamps are not modelled.
- Logging calls and the `last_err` detail in the error log are not modelled. The model keeps the
  last outcome in `Report.last`.
- config.py is not part of this model. It loads settings through pydantic and dotenv. The default
  voice id is a parameter.
- The SDK example string at the end of voice.py is not modelled; it is not code.
- Concurrent handlers are not modelled. Nothing in the source coordinates access to the cache
  or to the pick table.
- `Decimal.ParseInt`: reads only an optional sign and ASCII digits. Python's `int()` also accepts
  surrounding whitespace, underscores between digits and non-ASCII decimal digits. The bot never
  writes such payloads, so only forged ones could reach that branch.
- `Bot.PaginateButtons`: requires `page_size > 0`. A size of 0 raises ZeroDivisionError in the
  source, and every caller uses the default size of 8.
- `VoiceClient.GetVoices`: requires that the cache holds no empty list (`Valid`). The one cache
  instance starts empty and is only written by `get_voices`, which never stores an empty list.
