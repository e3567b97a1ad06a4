/**
 * The Hacker News API client: construction against a closed set of API
 * versions, `get_item` with its bounded retry loop, `get_top_stories`, and
 * the `on_news` subscription loop.
 *
 * The network is modelled by what it answers. For `get_item` the origin is a
 * function from the attempt index to the outcome of that attempt's request;
 * for `get_top_stories` it is the one outcome of the one request; for
 * `on_news` it is the finite sequence of events the stream delivers. The
 * sleeps, the requests made and the callback's arguments are returned as
 * logs.
 */
module Client {
  import opened Wrappers
  import opened Json
  import Decimal

  /** What the operations of the client raise. */
  datatype Error =
    | UnsupportedVersion(message: string)  // ValueError from the constructor
    | ItemNotFound(message: string)        // ItemNotFoundError: the retry budget is spent
    | BadStatus(status: int)               // ClientResponseError escaping get_top_stories
    | Transport(reason: string)            // any other fault of a request or of the stream
    | MalformedJson                        // json.loads rejects an event's data
    | NotAMapping                          // `.get` on a decoded event that is no object
    | NotAnInteger                         // `int(...)` rejects an event's value

  datatype Result<+T> = Ok(value: T) | Err(error: Error)

  /** The paths an operation requested, and what it returned or raised. */
  datatype Exchange = Exchange(requests: seq<string>, result: Result<Json>)

  /** Every API version the client accepts, with its base URL. */
  const SupportedVersions: map<string, string> := map["v0" := "https://hacker-news.firebaseio.com/"]

  /** The defaults of `get_item`'s `retries` and `interval` (seconds). */
  const DefaultRetries: int := 5
  const DefaultInterval: int := 3

  /** aiohttp's `raise_for_status` raises for every status from this one up. */
  const FirstErrorStatus: int := 400

  // ---------------------------------------------------------------------
  // Construction
  // ---------------------------------------------------------------------

  /** The base URL for `ver`, or the ValueError the constructor raises. */
  function BaseUrlFor(ver: string): (r: Result<string>)
    ensures r.Ok? <==> ver == "v0"
    ensures r.Ok? ==> r.value == "https://hacker-news.firebaseio.com/"
    ensures r.Err? ==> r.error == UnsupportedVersion("Unsupported version: " + ver)
  {
    if ver in SupportedVersions && SupportedVersions[ver] != "" then Ok(SupportedVersions[ver])
    else Err(UnsupportedVersion("Unsupported version: " + ver))
  }

  // ---------------------------------------------------------------------
  // get_item: one attempt
  // ---------------------------------------------------------------------

  /** What one request yields. */
  datatype Outcome =
    | Response(status: int, body: Json)  // an answer, with what `response.json()` decodes
    | Fault(reason: string)              // a raise that is not a ClientResponseError

  /** How the retry loop treats one attempt's outcome. */
  datatype Verdict = Good(item: Json) | Retry | Fatal(error: Error)

  /**
   * One attempt: a rejected status and an empty body both end in a
   * ClientResponseError and are retried; any other fault escapes the loop.
   */
  function Classify(o: Outcome): (v: Verdict)
    ensures v.Good? <==> o.Response? && o.status < FirstErrorStatus && Truthy(o.body)
    ensures v.Good? ==> v.item == o.body
    ensures v.Fatal? <==> o.Fault?
    ensures v.Fatal? ==> v.error == Transport(o.reason)
  {
    match o
    case Fault(reason) => Fatal(Transport(reason))
    case Response(status, body) =>
      if status >= FirstErrorStatus then Retry   // raise_for_status
      else if !Truthy(body) then Retry           // the empty-response ClientResponseError
      else Good(body)
  }

  // ---------------------------------------------------------------------
  // get_item: the whole loop, as a specification
  // ---------------------------------------------------------------------

  /** The verdict that ended a run of attempts and how many attempts were made. */
  datatype Tally = Tally(last: Verdict, attempts: nat)

  /**
   * Attempts `k`, `k + 1`, ... with `n` attempts left in the budget; a `Retry`
   * as the last verdict means the budget ran out.
   */
  function Run(origin: nat -> Outcome, k: nat, n: nat): (t: Tally)
    ensures t.attempts <= n
    ensures t.last.Retry? ==> t.attempts == n
    ensures !t.last.Retry? ==> t.attempts >= 1
    decreases n
  {
    if n == 0 then Tally(Retry, 0)
    else
      var v := Classify(origin(k));
      if v.Retry? then
        var rest := Run(origin, k + 1, n - 1);
        Tally(rest.last, rest.attempts + 1)
      else Tally(v, 1)
  }

  /** `len(range(retries))`. */
  function Budget(retries: int): nat {
    if retries > 0 then retries else 0
  }

  /** The message of the ItemNotFoundError; it names the item id and the retry count. */
  function NotFoundMessage(itemId: int, retries: int): (m: string)
    ensures NotFoundNames(m) == Some((itemId, retries))
  {
    var a, b := Decimal.Show(itemId), Decimal.Show(retries);
    SplitConcat("Failed to fetch item ", a, " after ", b, " attempts.");
    Decimal.ShowRoundTrip(itemId);
    Decimal.ShowRoundTrip(retries);
    "Failed to fetch item " + (a + (" after " + b)) + " attempts."
  }

  /** What a call of `get_item` returns or raises, how many requests it makes and how often it sleeps. */
  datatype ItemRun = ItemRun(result: Result<Json>, attempts: nat, sleeps: nat)

  function FetchItem(origin: nat -> Outcome, itemId: int, retries: int): (run: ItemRun)
    ensures run.attempts <= Budget(retries)
    ensures run.sleeps <= run.attempts
  {
    var t := Run(origin, 0, Budget(retries));
    match t.last
    case Good(item) => ItemRun(Ok(item), t.attempts, t.attempts - 1)
    case Fatal(e) => ItemRun(Err(e), t.attempts, t.attempts - 1)
    case Retry => ItemRun(Err(ItemNotFound(NotFoundMessage(itemId, retries))), t.attempts, t.attempts)
  }

  /** `n` copies of `x`. */
  function Repeat<T>(x: T, n: nat): seq<T> {
    seq(n, _ => x)
  }

  // ---------------------------------------------------------------------
  // on_news: one event, and the loop as a specification
  // ---------------------------------------------------------------------

  /** What the event stream delivers. */
  datatype Event =
    | Push(payload: Json)     // an event whose data decodes to `payload`
    | Garbled                 // an event whose data is not JSON
    | Broken(reason: string)  // the stream itself fails

  /** What the loop body does with one event. */
  datatype Action = Call(itemId: int) | Skip | Raise(error: Error)

  /** `data = json.loads(event.data) or {}` and the `if item_id := data.get("data")` that follows. */
  function Act(e: Event): (a: Action)
    ensures e.Push? && !Truthy(e.payload) ==> a == Skip
    ensures e.Push? && e.payload.JObj? ==>
      (a.Skip? <==> !Truthy(Get(e.payload.fields, "data")))
    ensures a.Call? <==>
      e.Push? && e.payload.JObj? && Truthy(Get(e.payload.fields, "data"))
      && ToInt(Get(e.payload.fields, "data")).Some?
    ensures a.Call? ==> Some(a.itemId) == ToInt(Get(e.payload.fields, "data"))
    ensures e.Push? && Truthy(e.payload) && !e.payload.JObj? ==> a == Raise(NotAMapping)
    ensures e.Garbled? ==> a == Raise(MalformedJson)
    ensures e.Broken? ==> a == Raise(Transport(e.reason))
    ensures (e.Push? && e.payload.JObj? && Truthy(Get(e.payload.fields, "data"))
             && ToInt(Get(e.payload.fields, "data")).None?) ==> a == Raise(NotAnInteger)
  {
    match e
    case Broken(reason) => Raise(Transport(reason))
    case Garbled => Raise(MalformedJson)
    case Push(payload) =>
      var data := if Truthy(payload) then payload else JObj(map[]);
      if !data.JObj? then Raise(NotAMapping)
      else
        var value := Get(data.fields, "data");
        if !Truthy(value) then Skip
        else match ToInt(value)
          case Some(id) => Call(id)
          case None => Raise(NotAnInteger)
  }

  /** The callback's arguments so far, how many events were skipped, and what was raised, if anything. */
  datatype Feed = Feed(calls: seq<int>, skipped: nat, failure: Option<Error>)

  /** Handling one more event; after a raise nothing more is handled. */
  function Step(f: Feed, e: Event): Feed {
    if f.failure.Some? then f
    else match Act(e)
      case Call(id) => f.(calls := f.calls + [id])
      case Skip => f.(skipped := f.skipped + 1)
      case Raise(err) => f.(failure := Some(err))
  }

  /**
   * The loop over `events`, event by event from the first: each event handled
   * gives one call or one skip, and all of them are handled unless one raises.
   */
  function Replay(events: seq<Event>): (f: Feed)
    ensures |f.calls| + f.skipped <= |events|
    ensures f.failure.None? ==> |f.calls| + f.skipped == |events|
    decreases |events|
  {
    if events == [] then Feed([], 0, None)
    else Step(Replay(events[..|events| - 1]), events[|events| - 1])
  }

  /** The callback's arguments, read off the events up to the first one that raises. */
  function Calls(events: seq<Event>): seq<int>
    decreases |events|
  {
    if events == [] then []
    else match Act(events[0])
      case Call(id) => [id] + Calls(events[1..])
      case Skip => Calls(events[1..])
      case Raise(_) => []
  }

  /** What the first event that raises raises. */
  function FirstFailure(events: seq<Event>): Option<Error>
    decreases |events|
  {
    if events == [] then None
    else match Act(events[0])
      case Raise(err) => Some(err)
      case _ => FirstFailure(events[1..])
  }

  // ---------------------------------------------------------------------
  // Reading back the texts the client writes
  // ---------------------------------------------------------------------

  /** The first index of `c` in `s`, or `|s|`. */
  function IndexOf(s: string, c: char): (i: nat)
    ensures i <= |s|
    ensures i < |s| ==> s[i] == c
    ensures forall j :: 0 <= j < i ==> s[j] != c
    decreases |s|
  {
    if s == [] then 0 else if s[0] == c then 0 else 1 + IndexOf(s[1..], c)
  }

  /** `s` without `prefix` and `suffix`, if it has both. */
  function Strip(s: string, prefix: string, suffix: string): Option<string> {
    if |s| >= |prefix| + |suffix| && s[..|prefix|] == prefix && s[|s| - |suffix|..] == suffix
    then Some(s[|prefix|..|s| - |suffix|])
    else None
  }

  lemma StripConcat(prefix: string, middle: string, suffix: string)
    ensures Strip(prefix + middle + suffix, prefix, suffix) == Some(middle)
  {
    var s := prefix + middle + suffix;
    assert s[..|prefix|] == prefix;
    assert s[|s| - |suffix|..] == suffix;
    assert s[|prefix|..|s| - |suffix|] == middle;
  }

  lemma IndexOfAfter(a: string, b: string, c: char)
    requires forall k :: 0 <= k < |a| ==> a[k] != c
    requires |b| > 0 && b[0] == c
    ensures IndexOf(a + b, c) == |a|
  {
    assert (a + b)[|a|] == c;
    assert forall k :: 0 <= k < |a| ==> (a + b)[k] == a[k];
  }

  /**
   * `prefix + a + infix + b + suffix` gives back `a` and `b` when `a` has no
   * space and `infix` starts with one.
   */
  lemma SplitConcat(prefix: string, a: string, infix: string, b: string, suffix: string)
    requires forall k :: 0 <= k < |a| ==> a[k] != ' '
    requires |infix| > 0 && infix[0] == ' '
    ensures match Strip(prefix + (a + (infix + b)) + suffix, prefix, suffix)
      case None => false
      case Some(middle) =>
        middle[..IndexOf(middle, ' ')] == a
        && Strip(middle[IndexOf(middle, ' ')..], infix, "") == Some(b)
  {
    var middle := a + (infix + b);
    StripConcat(prefix, middle, suffix);
    IndexOfAfter(a, infix + b, ' ');
    assert middle[..|a|] == a && middle[|a|..] == infix + b;
    StripConcat(infix, b, "");
    assert infix + b + "" == infix + b;
  }

  // ---------------------------------------------------------------------
  // The client
  // ---------------------------------------------------------------------

  class HackerNews {
    const ver: string
    const baseUrl: string

    /** The fields agree with the version map. */
    predicate Valid() {
      ver in SupportedVersions && baseUrl == SupportedVersions[ver]
    }

    /** The part of `__init__` after the version check has passed. */
    constructor (ver: string)
      requires ver in SupportedVersions
      ensures Valid() && this.ver == ver
    {
      this.ver := ver;
      this.baseUrl := SupportedVersions[ver];
    }

    /**
     * `HackerNews(ver)`: an unsupported version raises before anything else
     * happens (no request is made: nothing here reaches the network).
     */
    static method Create(ver: string) returns (r: Result<HackerNews>)
      ensures r.Ok? <==> ver == "v0"
      ensures r.Ok? ==> fresh(r.value) && r.value.Valid()
      ensures r.Ok? ==> r.value.ver == ver && r.value.baseUrl == "https://hacker-news.firebaseio.com/"
      ensures r.Err? ==> r.error == UnsupportedVersion("Unsupported version: " + ver)
    {
      match BaseUrlFor(ver)
      case Ok(_) =>
        var client := new HackerNews(ver);
        r := Ok(client);
      case Err(e) =>
        r := Err(e);
    }

    /**
     * The path `get_item` requests. It names the item, so distinct ids are
     * requested at distinct paths; for the one supported version the base
     * URL's trailing `/` doubles the slash.
     */
    function ItemPath(itemId: int): (p: string)
      ensures ItemIdOf(p) == Some(itemId)
      ensures Valid() ==> p == "https://hacker-news.firebaseio.com//v0/item/" + Decimal.Show(itemId) + ".json"
    {
      var prefix := baseUrl + "/" + ver + "/item/";
      StripConcat(prefix, Decimal.Show(itemId), ".json");
      Decimal.ShowRoundTrip(itemId);
      assert Valid() ==> prefix == "https://hacker-news.firebaseio.com//v0/item/";
      prefix + Decimal.Show(itemId) + ".json"
    }

    /** The path `get_top_stories` requests. */
    function TopStoriesPath(): (p: string)
      ensures Valid() ==> p == "https://hacker-news.firebaseio.com//v0/topstories.json"
    {
      baseUrl + "/" + ver + "/topstories.json"
    }

    /** The path of the stream `on_news` opens. */
    function MaxItemPath(): (p: string)
      ensures Valid() ==> p == "https://hacker-news.firebaseio.com//v0/maxitem.json"
    {
      baseUrl + "/" + ver + "/maxitem.json"
    }

    /** The item id named by a path of the item endpoint. */
    function ItemIdOf(path: string): Option<int> {
      match Strip(path, baseUrl + "/" + ver + "/item/", ".json")
      case Some(id) => Decimal.ParseInt(id)
      case None => None
    }

    /**
     * `get_item(item_id, retries, interval)`. `origin(k)` is the outcome of
     * the `k`-th request; `requests` are the paths requested and `sleeps` the
     * arguments of `asyncio.sleep`, in order.
     */
    method GetItem(itemId: int, origin: nat -> Outcome, retries: int, interval: int)
      returns (r: Result<Json>, requests: seq<string>, sleeps: seq<int>)
      ensures r == FetchItem(origin, itemId, retries).result
      ensures requests == Repeat(ItemPath(itemId), FetchItem(origin, itemId, retries).attempts)
      ensures sleeps == Repeat(interval, FetchItem(origin, itemId, retries).sleeps)
    {
      var path := ItemPath(itemId);
      var n := Budget(retries);
      requests, sleeps := [], [];
      var attempt := 0;
      while attempt < n
        invariant attempt <= n
        invariant requests == Repeat(path, attempt) && sleeps == Repeat(interval, attempt)
        invariant Run(origin, 0, n)
          == Tally(Run(origin, attempt, n - attempt).last, attempt + Run(origin, attempt, n - attempt).attempts)
      {
        requests := requests + [path];
        ghost var tally := Tally(Classify(origin(attempt)), attempt + 1);
        match origin(attempt)
        case Fault(reason) =>
          assert Run(origin, 0, n) == tally;
          return Err(Transport(reason)), requests, sleeps;
        case Response(status, body) =>
          if status < FirstErrorStatus && Truthy(body) {
            assert Run(origin, 0, n) == tally;
            return Ok(body), requests, sleeps;
          }
          // a ClientResponseError: from raise_for_status or for the empty body
          sleeps := sleeps + [interval];
        attempt := attempt + 1;
      }
      assert Run(origin, 0, n) == Tally(Retry, n);
      r := Err(ItemNotFound(NotFoundMessage(itemId, retries)));
    }

    /**
     * `get_item(item_id)` with the default `retries` and `interval`: an origin
     * that never gives a usable answer costs five requests and five sleeps of
     * three seconds.
     */
    method GetItemDefaults(itemId: int, origin: nat -> Outcome)
      returns (r: Result<Json>, requests: seq<string>, sleeps: seq<int>)
      ensures r == FetchItem(origin, itemId, DefaultRetries).result
      ensures requests == Repeat(ItemPath(itemId), FetchItem(origin, itemId, DefaultRetries).attempts)
      ensures sleeps == Repeat(DefaultInterval, FetchItem(origin, itemId, DefaultRetries).sleeps)
      ensures (forall j: nat :: j < DefaultRetries ==> Classify(origin(j)).Retry?) ==>
        r == Err(ItemNotFound("Failed to fetch item " + Decimal.Show(itemId) + " after 5 attempts."))
        && |requests| == 5 && sleeps == [3, 3, 3, 3, 3]
    {
      r, requests, sleeps := GetItem(itemId, origin, DefaultRetries, DefaultInterval);
      if forall j: nat :: j < DefaultRetries ==> Classify(origin(j)).Retry? {
        DefaultsPermanentFailure(origin, itemId);
        assert sleeps == Repeat(3, 5);
      }
    }

    /**
     * `get_top_stories()`: `reply` is the outcome of its one request, for
     * `TopStoriesPath()`; the decoded list is returned as it came.
     */
    function GetTopStories(reply: Outcome): (r: Exchange)
      ensures r.requests == [TopStoriesPath()]
      ensures r.result.Ok? <==> reply.Response? && reply.status < FirstErrorStatus
      ensures r.result.Ok? ==> r.result.value == reply.body
      ensures reply.Response? && reply.status >= FirstErrorStatus ==> r.result == Err(BadStatus(reply.status))
      ensures reply.Fault? ==> r.result == Err(Transport(reply.reason))
    {
      Exchange([TopStoriesPath()],
        match reply
        case Fault(reason) => Err(Transport(reason))
        case Response(status, body) =>
          if status >= FirstErrorStatus then Err(BadStatus(status)) else Ok(body))
    }

    /**
     * `on_news(callback)`: `stream` is the path opened and `events` what it
     * delivers; `calls` are the callback's arguments in the order of the
     * awaited calls, `skipped` the events passed over with a warning, and
     * `failure` what ended the loop by raising (`None` when the stream ended).
     */
    method OnNews(events: seq<Event>)
      returns (stream: string, calls: seq<int>, skipped: nat, failure: Option<Error>)
      ensures stream == MaxItemPath()
      ensures Feed(calls, skipped, failure) == Replay(events)
    {
      stream := MaxItemPath();
      calls, skipped, failure := [], 0, None;
      var i := 0;
      while i < |events| && failure.None?
        invariant i <= |events|
        invariant Feed(calls, skipped, failure) == Replay(events[..i])
        decreases |events| - i
      {
        assert events[..i + 1][..i] == events[..i];
        match Act(events[i]) {
          case Call(id) => calls := calls + [id];
          case Skip => skipped := skipped + 1;
          case Raise(err) => failure := Some(err);
        }
        i := i + 1;
      }
      if i < |events| {
        ReplayStopsAtFailure(events, i);
      } else {
        assert events[..i] == events;
      }
    }
  }

  // ---------------------------------------------------------------------
  // Lemmas: get_item
  // ---------------------------------------------------------------------

  /** Attempts whose verdict is `Retry` only shift the rest of the run. */
  lemma {:induction false} RunSkipsRetries(origin: nat -> Outcome, k: nat, n: nat, i: nat)
    requires i <= n
    requires forall j: nat :: k <= j < k + i ==> Classify(origin(j)).Retry?
    ensures Run(origin, k, n)
      == Tally(Run(origin, k + i, n - i).last, i + Run(origin, k + i, n - i).attempts)
    decreases i
  {
    if i > 0 {
      RunSkipsRetries(origin, k + 1, n - 1, i - 1);
    }
  }

  /** Every attempt before the last was retried, and the last one gave the final verdict. */
  lemma {:induction false} RunShape(origin: nat -> Outcome, k: nat, n: nat)
    ensures forall j: nat :: k <= j < k + Run(origin, k, n).attempts - 1 ==> Classify(origin(j)).Retry?
    ensures Run(origin, k, n).last.Retry? ==>
      forall j: nat :: k <= j < k + n ==> Classify(origin(j)).Retry?
    ensures !Run(origin, k, n).last.Retry? ==>
      Classify(origin(k + Run(origin, k, n).attempts - 1)) == Run(origin, k, n).last
    decreases n
  {
    if n > 0 && Classify(origin(k)).Retry? {
      RunShape(origin, k + 1, n - 1);
    }
  }

  /**
   * If attempts `1 .. a - 1` fail in a way that is retried and attempt `a`
   * succeeds, `get_item` returns that body after exactly `a` requests and
   * `a - 1` sleeps: nothing is requested or slept after the success.
   */
  lemma FirstGoodIsReturned(origin: nat -> Outcome, itemId: int, retries: int, a: nat, item: Json)
    requires 1 <= a <= retries
    requires forall j: nat :: j < a - 1 ==> Classify(origin(j)).Retry?
    requires Classify(origin(a - 1)) == Good(item)
    ensures FetchItem(origin, itemId, retries) == ItemRun(Ok(item), a, a - 1)
  {
    RunSkipsRetries(origin, 0, retries, a - 1);
    assert Run(origin, a - 1, retries - (a - 1)) == Tally(Good(item), 1);
    assert Run(origin, 0, Budget(retries)) == Tally(Good(item), a);
  }

  /**
   * A fault other than a ClientResponseError on attempt `a` escapes at once:
   * `a` requests, no sleep after it, the rest of the budget is unused.
   */
  lemma FatalEscapes(origin: nat -> Outcome, itemId: int, retries: int, a: nat, reason: string)
    requires 1 <= a <= retries
    requires forall j: nat :: j < a - 1 ==> Classify(origin(j)).Retry?
    requires origin(a - 1) == Fault(reason)
    ensures FetchItem(origin, itemId, retries) == ItemRun(Err(Transport(reason)), a, a - 1)
  {
    RunSkipsRetries(origin, 0, retries, a - 1);
  }

  /**
   * When every attempt is retried, exactly `retries` requests and `retries`
   * sleeps happen (one after the last attempt too) and ItemNotFoundError is
   * raised with the message naming the id and `retries`.
   */
  lemma ExhaustedBudget(origin: nat -> Outcome, itemId: int, retries: int)
    requires forall j: nat :: j < retries ==> Classify(origin(j)).Retry?
    ensures FetchItem(origin, itemId, retries)
      == ItemRun(Err(ItemNotFound(NotFoundMessage(itemId, retries))), Budget(retries), Budget(retries))
  {
    RunSkipsRetries(origin, 0, Budget(retries), Budget(retries));
  }

  /**
   * With the defaults, an origin that never gives a usable answer costs five
   * requests and five sleeps, and the error says so.
   */
  lemma DefaultsPermanentFailure(origin: nat -> Outcome, itemId: int)
    requires forall j: nat :: j < DefaultRetries ==> Classify(origin(j)).Retry?
    ensures FetchItem(origin, itemId, DefaultRetries)
      == ItemRun(Err(ItemNotFound("Failed to fetch item " + Decimal.Show(itemId) + " after 5 attempts.")), 5, 5)
  {
    ExhaustedBudget(origin, itemId, DefaultRetries);
    DefaultNotFoundMessage(itemId);
  }

  /** The not-found message for the default budget. */
  lemma DefaultNotFoundMessage(itemId: int)
    ensures NotFoundMessage(itemId, 5) == "Failed to fetch item " + Decimal.Show(itemId) + " after 5 attempts."
  {
    var a := Decimal.Show(itemId);
    ShowFive();
    assert NotFoundMessage(itemId, 5) == "Failed to fetch item " + (a + (" after " + "5")) + " attempts.";
    ConcatRegroup("Failed to fetch item ", a, " after " + "5", " attempts.");
    AfterFive();
  }

  lemma ShowFive()
    ensures Decimal.Show(5) == "5"
  {
  }

  lemma AfterFive()
    ensures " after " + "5" + " attempts." == " after 5 attempts."
  {
  }

  lemma ConcatRegroup(p: string, a: string, x: string, y: string)
    ensures p + (a + x) + y == p + a + (x + y)
  {
  }

  /** With no budget, no request is made and ItemNotFoundError is raised at once. */
  lemma NoBudget(origin: nat -> Outcome, itemId: int, retries: int)
    requires retries <= 0
    ensures FetchItem(origin, itemId, retries)
      == ItemRun(Err(ItemNotFound(NotFoundMessage(itemId, retries))), 0, 0)
  {
  }

  /**
   * The converse: whatever `get_item` ends with is explained by the verdicts
   * of the attempts it made.
   */
  lemma FetchItemShape(origin: nat -> Outcome, itemId: int, retries: int)
    ensures var r := FetchItem(origin, itemId, retries).result;
      r.Ok? || r == Err(ItemNotFound(NotFoundMessage(itemId, retries))) || (r.Err? && r.error.Transport?)
    ensures var run := FetchItem(origin, itemId, retries);
      forall j: nat :: j + 1 < run.attempts ==> Classify(origin(j)).Retry?
    ensures var run := FetchItem(origin, itemId, retries);
      run.result.Ok? ==>
        run.attempts >= 1 && run.sleeps == run.attempts - 1
        && Classify(origin(run.attempts - 1)) == Good(run.result.value)
    ensures var run := FetchItem(origin, itemId, retries);
      run.result == Err(ItemNotFound(NotFoundMessage(itemId, retries))) ==>
        run.attempts == run.sleeps == Budget(retries)
        && forall j: nat :: j < Budget(retries) ==> Classify(origin(j)).Retry?
    ensures var run := FetchItem(origin, itemId, retries);
      run.result.Err? && run.result.error.Transport? ==>
        run.attempts >= 1 && run.sleeps == run.attempts - 1
        && origin(run.attempts - 1) == Fault(run.result.error.reason)
  {
    var n := Budget(retries);
    RunShape(origin, 0, n);
    var t := Run(origin, 0, n);
    match t.last
    case Good(item) =>
      assert FetchItem(origin, itemId, retries) == ItemRun(Ok(item), t.attempts, t.attempts - 1);
    case Fatal(e) =>
      assert e.Transport? && origin(t.attempts - 1) == Fault(e.reason);
      assert FetchItem(origin, itemId, retries) == ItemRun(Err(e), t.attempts, t.attempts - 1);
    case Retry =>
      assert FetchItem(origin, itemId, retries)
        == ItemRun(Err(ItemNotFound(NotFoundMessage(itemId, retries))), n, n);
  }

  /** Runs over origins whose attempts get the same verdicts agree. */
  lemma {:induction false} RunRespectsVerdicts(o1: nat -> Outcome, o2: nat -> Outcome, k: nat, n: nat)
    requires forall j: nat :: k <= j < k + n ==> Classify(o1(j)) == Classify(o2(j))
    ensures Run(o1, k, n) == Run(o2, k, n)
    decreases n
  {
    if n > 0 {
      RunRespectsVerdicts(o1, o2, k + 1, n - 1);
    }
  }

  /**
   * An empty body on a success status is the same ClientResponseError as a
   * rejected status: answering attempt `j` with either leaves the result,
   * the number of requests and the number of sleeps unchanged.
   */
  lemma EmptyBodyCountsAsBadStatus(origin: nat -> Outcome, itemId: int, retries: int,
                                   j: nat, ok: int, empty: Json, bad: int, body: Json)
    requires ok < FirstErrorStatus && !Truthy(empty)
    requires bad >= FirstErrorStatus
    requires origin(j) == Response(ok, empty)
    ensures FetchItem(origin, itemId, retries)
      == FetchItem((k: nat) => if k == j then Response(bad, body) else origin(k), itemId, retries)
  {
    var other := (k: nat) => if k == j then Response(bad, body) else origin(k);
    RunRespectsVerdicts(origin, other, 0, Budget(retries));
  }

  /** The id and the retry count that a not-found message names. */
  function NotFoundNames(message: string): Option<(int, int)> {
    match Strip(message, "Failed to fetch item ", " attempts.")
    case None => None
    case Some(middle) =>
      var i := IndexOf(middle, ' ');
      match Strip(middle[i..], " after ", "")
      case None => None
      case Some(count) =>
        match (Decimal.ParseInt(middle[..i]), Decimal.ParseInt(count))
        case (Some(id), Some(n)) => Some((id, n))
        case _ => None
  }

  // ---------------------------------------------------------------------
  // Lemmas: get_top_stories
  // ---------------------------------------------------------------------

  /** A ranked list of ids comes back in its order, nothing dropped; `[]` and `null` too. */
  lemma TopStoriesAsDelivered(client: HackerNews, status: int, ids: seq<int>)
    requires status < FirstErrorStatus
    ensures client.GetTopStories(Response(status, JArr(Ints(ids)))).result == Ok(JArr(Ints(ids)))
    ensures client.GetTopStories(Response(status, JArr([]))).result == Ok(JArr([]))
    ensures client.GetTopStories(Response(status, JNull)).result == Ok(JNull)
  {
  }

  // ---------------------------------------------------------------------
  // Lemmas: on_news
  // ---------------------------------------------------------------------

  /** Once the loop has raised, later events change nothing. */
  lemma {:induction false} ReplayStopsAtFailure(events: seq<Event>, i: nat)
    requires i <= |events|
    requires Replay(events[..i]).failure.Some?
    ensures Replay(events) == Replay(events[..i])
    decreases |events| - i
  {
    if i < |events| {
      var m := |events| - 1;
      assert events[..m][..i] == events[..i];
      ReplayStopsAtFailure(events[..m], i);
      assert events[..m + 1] == events;
    } else {
      assert events[..i] == events;
    }
  }

  lemma {:induction false} CallsAppend(events: seq<Event>, e: Event)
    ensures Calls(events + [e])
      == if FirstFailure(events).Some? then Calls(events)
         else Calls(events) + (if Act(e).Call? then [Act(e).itemId] else [])
    ensures FirstFailure(events + [e])
      == if FirstFailure(events).Some? then FirstFailure(events)
         else if Act(e).Raise? then Some(Act(e).error) else None
    decreases |events|
  {
    if events != [] {
      assert (events + [e])[1..] == events[1..] + [e];
      CallsAppend(events[1..], e);
    } else {
      assert [e][1..] == [];
    }
  }

  /**
   * The loop calls back with exactly the ids of the events before the first
   * one that raises, in arrival order, and raises what that event raises.
   */
  lemma {:induction false} ReplayIsCallsInOrder(events: seq<Event>)
    ensures Replay(events).calls == Calls(events)
    ensures Replay(events).failure == FirstFailure(events)
    decreases |events|
  {
    if events != [] {
      var m := |events| - 1;
      ReplayIsCallsInOrder(events[..m]);
      CallsAppend(events[..m], events[m]);
      assert events[..m] + [events[m]] == events;
    }
  }

  /**
   * When no event raises, the loop runs to the end of the stream and every
   * event is either one call or one skip.
   */
  lemma {:induction false} EveryEventHandled(events: seq<Event>)
    requires forall i :: 0 <= i < |events| ==> !Act(events[i]).Raise?
    ensures Replay(events).failure == None
    ensures |Replay(events).calls| + Replay(events).skipped == |events|
    decreases |events|
  {
    if events != [] {
      var m := |events| - 1;
      EveryEventHandled(events[..m]);
      assert !Act(events[m]).Raise?;
    }
  }

  /** `{"data": 5}`, `{}`, `{"data": 7}`: the callback gets 5 and then 7; the middle event is skipped. */
  lemma SkippedEventDoesNotStopTheLoop()
    ensures Replay([Push(JObj(map["data" := JInt(5)])), Push(JObj(map[])), Push(JObj(map["data" := JInt(7)]))])
      == Feed([5, 7], 1, None)
  {
    var events := [Push(JObj(map["data" := JInt(5)])), Push(JObj(map[])), Push(JObj(map["data" := JInt(7)]))];
    assert Act(events[0]) == Call(5);
    assert Act(events[1]) == Skip;
    assert Act(events[2]) == Call(7);
    assert events[..1][..0] == [];
    assert Replay(events[..1]) == Feed([5], 0, None);
    assert events[..2][..1] == events[..1];
    assert Replay(events[..2]) == Feed([5], 1, None);
    assert events[..2] == events[..|events| - 1];
  }
}
