# Hacker News client, modelled in Dafny

This project models the Hacker News API client of the `hackernews_bot`
repository (`hackernews_bot/hackernews/client.py`, class `HackerNews`) and
proves what it does:

- **Construction** accepts only a version of the closed version map (`"v0"`,
  base URL `https://hacker-news.firebaseio.com/`). Any other version raises
  `ValueError("Unsupported version: <ver>")` before anything touches the
  network.
- **`get_item`** runs a bounded loop of attempts. An attempt succeeds only
  when the status is below 400 (aiohttp's `raise_for_status` rejects from
  400 up) and the decoded body is truthy in Python's sense. A rejected status
  and an empty body both end in a `ClientResponseError`. Either one is
  followed by a sleep of `interval`, after the last attempt too, and by a
  retry while budget remains.
  Any other fault escapes at once. When the budget is spent,
  `ItemNotFoundError("Failed to fetch item <id> after <retries> attempts.")`
  is raised.
- **`on_news`** reads the event stream in order. `json.loads(data) or {}`
  turns falsy payloads into `{}`. The callback is awaited with `int(value)`
  once per event whose `"data"` value is truthy and converts with `int`.
  Events with a falsy payload or a falsy value are skipped. The malformed
  events listed below raise.
- **`get_top_stories`** makes one request. It returns the decoded value as
  delivered, `[]` and `null` included. A rejected status raises.

The model has four modules:

- `Wrappers` (`wrappers.dfy`): `Option`.
- `Decimal` (`decimal.dfy`): Python's `str(int)`, and `int(str)` for signed
  digit strings. Both are used in the paths, the error message and the event
  values.
- `Json` (`json.dfy`): decoded JSON values, with Python truthiness, `dict.get`
  and `int(...)`.
- `Client` (`client.dfy`): the client class and the specification functions
  behind its methods.

The network is replaced by data:

- For `get_item`, the origin is a function from the attempt index to that
  attempt's `Outcome`. An outcome is `Response(status, body)` or
  `Fault(reason)`, where a fault stands for any raise that is not a
  `ClientResponseError`.
- For `get_top_stories`, it is the outcome of its single request.
- For `on_news`, it is the finite sequence of stream events:
  - `Push(payload)`: an event's data, decoded;
  - `Garbled`: data that is not JSON;
  - `Broken(reason)`: a failure of the stream itself.

The methods return what the source does to the outside world as ordinary
results:

- `GetItem` returns the requested paths and the arguments of each
  `asyncio.sleep`;
- `GetTopStories` returns the path it requested with its result;
- `OnNews` returns the path of the stream it opens and the callback's
  arguments in order.

`GetItem` and `OnNews` are imperative loops. Each is proved equal to a
specification function: `FetchItem`/`Run` for `GetItem` and `Replay` for
`OnNews`. The lemmas then state the source's promises about those functions.

Edge cases of the source that the model keeps as written:

- `on_news` does not skip a malformed event
  (`hackernews_bot/hackernews/client.py:46-48`). It raises, and the loop
  ends, in three cases:
  - data that is not JSON (`json.JSONDecodeError`);
  - a truthy payload that is not an object (`.get` raises `AttributeError`);
  - a value that `int()` rejects.
- `get_top_stories` returns a `null` list as delivered
  (`hackernews_bot/hackernews/client.py:108`). Only the chat handler in
  `bot/api.py` treats it as empty.
- Only `ClientResponseError` is retried
  (`hackernews_bot/hackernews/client.py:85`). Every other fault propagates at
  once.
- `__init__` raises `ValueError` (`hackernews_bot/hackernews/client.py:32`).
- `get_item` accepts any `retries`. With `retries <= 0` it raises
  `ItemNotFoundError` at once, without a request.
- `on_news` returns when the stream ends; the model's finite streams end that
  way.
- Paths are `base_url + "/" + ver + ...`, and the base URL already ends in
  `/`. So the model keeps the doubled slash: `https://hacker-news.firebaseio.com//v0/item/<id>.json`.

## Model

| member | source | states |
|---|---|---|
| `Client.BaseUrlFor` | hackernews_bot/hackernews/client.py:24-32 | the version map is closed: a base URL exists exactly for `"v0"`, it is the Firebase URL, and every other version gives `ValueError("Unsupported version: <ver>")` |
| `Client.HackerNews.Create` | hackernews_bot/hackernews/client.py:28-32 | construction succeeds exactly for `"v0"`, sets `ver` and `base_url` from the map, and otherwise fails with the unsupported-version error; it takes no origin, so no request can precede the check |
| `Client.Classify` | hackernews_bot/hackernews/client.py:67-85 | an attempt is usable exactly when its status is below 400 and its body is truthy, and then yields that body; a non-`ClientResponseError` fault (and only that) escapes the loop; everything else is retried |
| `Client.Run` | hackernews_bot/hackernews/client.py:66-91 | a run makes at most its budget of attempts; it stops early only on a usable or escaping outcome, after at least one attempt, and uses the whole budget when every attempt is retried |
| `Client.FetchItem` | hackernews_bot/hackernews/client.py:52-93 | `get_item` never makes more requests than its budget, and never sleeps more often than it requests |
| `Client.HackerNews.GetItem` | hackernews_bot/hackernews/client.py:52-93 | the retry loop returns or raises what `FetchItem` says; it requests the item path once per attempt, and sleeps `interval` once per retried attempt |
| `Client.RunSkipsRetries` | hackernews_bot/hackernews/client.py:66-91 | a prefix of retried attempts only delays the rest of the run, each by one attempt |
| `Client.RunShape` | hackernews_bot/hackernews/client.py:66-91 | in every run, each attempt before the last was retried; the last attempt's verdict is the run's result; a run that ends retrying retried every attempt of its budget |
| `Client.FirstGoodIsReturned` | hackernews_bot/hackernews/client.py:66-84 | if attempts before `a` are retried and attempt `a` is usable, its body is returned after exactly `a` requests and `a - 1` sleeps: nothing is requested or slept after success |
| `Client.FatalEscapes` | hackernews_bot/hackernews/client.py:66-85 | a fault other than `ClientResponseError` on attempt `a` propagates from that attempt, with `a` requests, `a - 1` sleeps, and none after it |
| `Client.ExhaustedBudget` | hackernews_bot/hackernews/client.py:85-93 | when every attempt is retried, exactly `retries` requests and `retries` sleeps happen (one after the last attempt too), then `ItemNotFoundError` with the id and `retries` |
| `Client.HackerNews.GetItemDefaults` | hackernews_bot/hackernews/client.py:52-55 | `get_item(item_id)` with the default arguments: when no attempt is usable, it makes 5 requests and sleeps `[3, 3, 3, 3, 3]`, and raises "... after 5 attempts." |
| `Client.DefaultNotFoundMessage` | hackernews_bot/hackernews/client.py:92 | with the default budget the message reads "Failed to fetch item <id> after 5 attempts." |
| `Client.DefaultsPermanentFailure` | hackernews_bot/hackernews/client.py:52-55 | with the default budget of 5, a permanently failing origin costs 5 requests and 5 sleeps, and the error reads "... after 5 attempts." |
| `Client.NoBudget` | hackernews_bot/hackernews/client.py:66-93 | with `retries <= 0`, no request and no sleep happen, and `ItemNotFoundError` is raised at once |
| `Client.FetchItemShape` | hackernews_bot/hackernews/client.py:66-93 | `get_item` ends in one of three ways: a body, `ItemNotFoundError` with its message, or an escaping transport fault; conversely, a returned body is the first usable outcome, after `attempts - 1` sleeps; a not-found error means every attempt of the budget was retried; an escaping fault is what the last attempt raised |
| `Client.RunRespectsVerdicts` | hackernews_bot/hackernews/client.py:66-91 | the loop sees nothing of an outcome but its verdict: origins with the same verdicts give the same run |
| `Client.EmptyBodyCountsAsBadStatus` | hackernews_bot/hackernews/client.py:74-91 | an empty body on a success status is the same `ClientResponseError` as a rejected status: swapping one for the other changes neither the result nor the number of requests or sleeps |
| `Client.NotFoundMessage` | hackernews_bot/hackernews/client.py:92-93 | the `ItemNotFoundError` message names the item id and the retry count: both can be read back from it, for every integer |
| `Client.HackerNews.ItemPath` | hackernews_bot/hackernews/client.py:64 | the item path names its id (it can be read back, so distinct ids are requested at distinct paths); for a constructed client it is `https://hacker-news.firebaseio.com//v0/item/<id>.json`, slash doubled |
| `Client.HackerNews.TopStoriesPath` | hackernews_bot/hackernews/client.py:97 | for a constructed client the top-stories path is `https://hacker-news.firebaseio.com//v0/topstories.json` |
| `Client.HackerNews.MaxItemPath` | hackernews_bot/hackernews/client.py:44 | for a constructed client the stream path is `https://hacker-news.firebaseio.com//v0/maxitem.json` |
| `Client.HackerNews.GetTopStories` | hackernews_bot/hackernews/client.py:95-108 | exactly one request, for the top-stories path; a status below 400 returns the decoded value unchanged, whatever it is; a rejected status raises that status's `ClientResponseError`; any other fault propagates |
| `Client.TopStoriesAsDelivered` | hackernews_bot/hackernews/client.py:97-108 | a ranked id list comes back in its order with nothing dropped, and `[]` and `null` are returned rather than raised |
| `Client.Act` | hackernews_bot/hackernews/client.py:45-50 | per event: a falsy payload, a missing `"data"` key or a falsy value is skipped; a truthy value gives a call with `int(value)`; undecodable data, a truthy non-object payload, an unconvertible value and a stream fault raise |
| `Client.HackerNews.OnNews` | hackernews_bot/hackernews/client.py:34-50 | the stream opened is the max-item path; the subscription loop handles the events in arrival order, one at a time, and stops at the first raise; its calls, skips and failure are those of `Replay` |
| `Client.Replay` | hackernews_bot/hackernews/client.py:45-50 | the calls plus the skips never outnumber the events (a raising event gives neither); when nothing raises, they equal the number of events |
| `Client.ReplayStopsAtFailure` | hackernews_bot/hackernews/client.py:45-50 | once an event raises, later events are never handled |
| `Client.CallsAppend` | hackernews_bot/hackernews/client.py:45-50 | one more event adds its call, and nothing else, to the calls; it does this only while nothing has raised |
| `Client.ReplayIsCallsInOrder` | hackernews_bot/hackernews/client.py:45-50 | the callback is invoked with exactly the ids of the events before the first raising one, in arrival order; the loop raises what that event raises |
| `Client.EveryEventHandled` | hackernews_bot/hackernews/client.py:45-50 | when no event raises, the loop reaches the end of the stream, and every event gives exactly one call or one skip |
| `Client.SkippedEventDoesNotStopTheLoop` | hackernews_bot/hackernews/client.py:45-50 | the stream `{"data": 5}`, `{}`, `{"data": 7}` calls back with 5 and then 7, skips the middle event, and ends normally |
| `Json.Truthy` | hackernews_bot/hackernews/client.py:46-47 | Python's truth value: the falsy values are exactly `null`, `false`, `0`, `""`, `[]` and `{}` |
| `Json.ToInt` | hackernews_bot/hackernews/client.py:48 | `int(n)` is `n`, `int(True)` is 1, a string converts exactly when it is signed decimal text, and `null`, lists and objects are rejected |
| `Json.ToIntOfDecimalText` | hackernews_bot/hackernews/client.py:48 | an id sent as decimal text reads back as the id: `int(str(n)) == n` |
| `Decimal.ParseInt` | hackernews_bot/hackernews/client.py:48 | `int(s)` succeeds exactly on a non-empty digit string, optionally signed |
| `Decimal.NatDigitsRoundTrip` | hackernews_bot/hackernews/client.py:64 | reading back the digits written for a natural number gives the number |
| `Decimal.ShowRoundTrip` | hackernews_bot/hackernews/client.py:64 | `int(str(n)) == n` for every integer, negative ones included |
| `Decimal.ShowIsCanonical` | hackernews_bot/hackernews/client.py:64 | `str(n)` has no `+` sign, no leading zero and no `-0` |
| `Decimal.ParseIntCanonical` | hackernews_bot/hackernews/client.py:48 | the other direction of the round trip: text in that canonical form is read by `int` as a number whose `str` is the text again |
| `Decimal.ShowInjective` | hackernews_bot/hackernews/client.py:64 | distinct integers have distinct decimal texts |

## Left out

- The aiohttp `ClientSession`, the `User-Agent` header, `response.json()` and the `aiosseclient` stream: network I/O, replaced by the scripted outcomes and events above.
- aiohttp's `ContentTypeError`: a body with the wrong content type is a `ClientResponseError` and is retried. In the model it appears as a retried `Response`. A body that is not JSON is not a `ClientResponseError` and escapes, like a `Fault`.
- `asyncio.sleep` timing: only the sleeps' arguments and their number are modelled, not elapsed time.
- Concurrency and cancellation: the model runs one call at a time. Neither `get_item` nor `on_news` catches a cancellation, so one would simply propagate.
- The callback's own behaviour: in the model every callback call completes. In the source, an exception from the callback would end `on_news`.
- Logging calls: they have no effect on behaviour.
- JSON floats: `int(3.7)` truncation is not modelled, since the model's numbers are integers.
- `int(str)` forms beyond an optional sign and ASCII digits: surrounding whitespace, underscores and non-ASCII digits are not modelled. The model treats them as a conversion failure.
- Default arguments: `Create` takes the version explicitly, so `ver="v0"` is not modelled. `get_item`'s defaults (`retries=5`, `interval=3`) are modelled by `GetItemDefaults`.
- The chat-command layer (`bot/api.py`, `bot/middlewares.py`), the CLI bootstrap (`cmd/cli.py`), configuration loading (`config.py`) and the message constants (`consts.py`): these are outside the client.
- Exception classes other than `ItemNotFoundError` (`exceptions.py`): the client never raises them.
