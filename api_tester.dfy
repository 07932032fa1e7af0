/**
 * The API tester dialog: the parameter and body objects it seeds from the
 * endpoint, the handlers that edit them, and the request it sends (URL,
 * query string, headers, body), with the text it shows for the response.
 */
module ApiTester {
  import opened Wrappers
  import opened Text
  import opened OrderedMap
  import opened UrlEncoding
  import opened Json
  import opened Catalogue
  import opened Storage
  import opened App
  import EndpointForm

  const CountryKey := "country"

  /** The parameters the dialog starts with: `country`, then every URL and query parameter. */
  function SeedNames(endpoint: Option<EndpointSpec>): seq<string>
  {
    [CountryKey] + match endpoint
      case Some(e) => Names(e.urlParams) + Names(e.queryParams)
      case None => []
  }

  /** The body parameters of the endpoint, if any. */
  function BodyNames(endpoint: Option<EndpointSpec>): seq<string>
  {
    match endpoint
    case Some(e) => Names(e.bodyParams)
    case None => []
  }

  lemma BlankObjectSnoc(names: seq<string>, n: string)
    ensures BlankObject(names + [n]) == Put(BlankObject(names), n, JString(""))
  {
    assert (names + [n])[..|names|] == names;
  }

  /** A name that is already blank stays where it is when blanked again. */
  lemma BlankAgain(names: seq<string>, n: string)
    requires n in names
    ensures BlankObject(names + [n]) == BlankObject(names)
  {
    BlankPresent(names, n);
    BlankObjectSnoc(names, n);
  }

  lemma BlankPresent(names: seq<string>, n: string)
    requires n in names
    ensures Put(BlankObject(names), n, JString("")) == BlankObject(names)
  {
    var m := BlankObject(names);
    BlankObjectShape(names);
    assert n in Keys(m);
    PutSame(m, n, JString(""));
  }

  /** Blanking one more name: `skip`, already blank, changes nothing; any other name is put. */
  lemma BlankStep(done: seq<string>, n: string, skip: string)
    requires skip in done
    ensures BlankObject(done + [n]) == if n != skip then Put(BlankObject(done), n, JString("")) else BlankObject(done)
  {
    if n != skip {
      BlankObjectSnoc(done, n);
    } else {
      BlankAgain(done, n);
    }
  }

  lemma MoveHead<T>(xs: seq<T>, ys: seq<T>)
    requires ys != []
    ensures (xs + [ys[0]]) + ys[1..] == xs + ys
  {
    assert ys == [ys[0]] + ys[1..];
  }

  /** A `forEach` over `names` that sets each one to "" except `skip`. */
  function BlankAllBut(m: Entries<Json>, names: seq<string>, skip: string): Entries<Json>
    decreases |names|
  {
    if names == [] then m
    else BlankAllBut(if names[0] != skip then Put(m, names[0], JString("")) else m, names[1..], skip)
  }

  /** Skipping a name that is already blank is the same as blanking it again. */
  lemma {:induction false} BlankAllButObject(before: seq<string>, names: seq<string>, skip: string)
    requires skip in before
    ensures BlankAllBut(BlankObject(before), names, skip) == BlankObject(before + names)
    decreases names
  {
    if names == [] {
      assert before + names == before;
    } else {
      var n, next := names[0], before + [names[0]];
      var m := if n != skip then Put(BlankObject(before), n, JString("")) else BlankObject(before);
      assert BlankAllBut(BlankObject(before), names, skip) == BlankAllBut(m, names[1..], skip);
      BlankStep(before, n, skip);
      assert skip in next;
      BlankAllButObject(next, names[1..], skip);
      MoveHead(before, names);
    }
  }

  /**
   * One `forEach` of the effect: every name but `country` is set to "".
   * Since `country` was set first, skipping it gives the same object as
   * setting it again.
   */
  method AddBlanks(params: Entries<Json>, before: seq<string>, names: seq<string>, skip: string) returns (r: Entries<Json>)
    requires skip in before
    requires params == BlankObject(before)
    ensures r == BlankObject(before + names)
  {
    r := params;
    var i := 0;
    while i < |names|
      invariant 0 <= i <= |names|
      invariant BlankAllBut(r, names[i..], skip) == BlankAllBut(params, names, skip)
    {
      assert names[i..][1..] == names[i + 1..];
      if names[i] != skip {
        r := Put(r, names[i], JString(""));
      }
      i := i + 1;
    }
    BlankAllButObject(before, names, skip);
  }

  lemma BlankSingle(k: string)
    ensures BlankObject([k]) == [(k, JString(""))]
  {
    assert [k][..0] == [];
  }

  lemma SeedPrefixes(e: EndpointSpec)
    ensures CountryKey in [CountryKey] && CountryKey in [CountryKey] + Names(e.urlParams)
    ensures e.urlParams == [] ==> [CountryKey] + Names(e.urlParams) == [CountryKey]
    ensures e.queryParams == [] ==> [CountryKey] + Names(e.urlParams) + Names(e.queryParams) == [CountryKey] + Names(e.urlParams)
    ensures [CountryKey] + Names(e.urlParams) + Names(e.queryParams) == SeedNames(Some(e))
  {
    var k := CountryKey;
    assert ([k] + Names(e.urlParams))[0] == k;
  }

  /** `initialParams` of the effect. */
  method InitialParams(endpoint: Option<EndpointSpec>) returns (params: Entries<Json>)
    ensures params == BlankObject(SeedNames(endpoint))
  {
    params := [(CountryKey, JString(""))];
    if endpoint.None? {
      SeedNone();
      return;
    }
    var e := endpoint.value;
    BlankSingle(CountryKey);
    SeedPrefixes(e);
    if |e.urlParams| > 0 {
      params := AddBlanks(params, [CountryKey], Names(e.urlParams), CountryKey);
    }
    if |e.queryParams| > 0 {
      params := AddBlanks(params, [CountryKey] + Names(e.urlParams), Names(e.queryParams), CountryKey);
    }
  }

  lemma SeedNone()
    ensures [(CountryKey, JString(""))] == BlankObject(SeedNames(None))
  {
    assert SeedNames(None) == [CountryKey];
    BlankSingle(CountryKey);
  }

  lemma BlankPrefixStep(names: seq<string>, i: nat)
    requires i < |names|
    ensures BlankObject(names[..i + 1]) == Put(BlankObject(names[..i]), names[i], JString(""))
  {
    assert names[..i + 1] == names[..i] + [names[i]];
    BlankObjectSnoc(names[..i], names[i]);
  }

  /** `initialBody` of the effect: one "" member per body parameter. */
  method InitialBody(endpoint: Option<EndpointSpec>) returns (body: Entries<Json>)
    ensures body == BlankObject(BodyNames(endpoint))
  {
    body := [];
    if endpoint.Some? && |endpoint.value.bodyParams| > 0 {
      var names := Names(endpoint.value.bodyParams);
      var i := 0;
      while i < |names|
        invariant 0 <= i <= |names|
        invariant body == BlankObject(names[..i])
      {
        BlankPrefixStep(names, i);
        body := Put(body, names[i], JString(""));
        i := i + 1;
      }
      assert names[..i] == names;
    }
  }

  /**
   * The seeded parameters hold `country` first and then each distinct URL
   * and query parameter once, in declared order, every value "".
   */
  lemma SeededParams(endpoint: Option<EndpointSpec>)
    ensures Keys(BlankObject(SeedNames(endpoint))) == Dedup(SeedNames(endpoint))
    ensures |BlankObject(SeedNames(endpoint))| >= 1 && BlankObject(SeedNames(endpoint))[0] == (CountryKey, JString(""))
    ensures UniqueKeys(BlankObject(SeedNames(endpoint)))
  {
    var names := SeedNames(endpoint);
    var m := BlankObject(names);
    BlankObjectShape(names);
    assert names[0] in Dedup(names);
    DedupHead(names);
    assert m[0].0 == Keys(m)[0] == CountryKey;
    BlankObjectUnique(names);
  }

  lemma {:induction false} DedupHead(xs: seq<string>)
    requires xs != []
    ensures Dedup(xs) != [] && Dedup(xs)[0] == xs[0]
    decreases |xs|
  {
    var init, last := xs[..|xs| - 1], xs[|xs| - 1];
    assert xs == init + [last];
    if init != [] {
      DedupHead(init);
      assert init[0] == xs[0];
    }
  }

  /** The entries `URLSearchParams` receives: every truthy value, as `String(value)`, in order. */
  function QueryPairs(entries: Entries<Json>): (pairs: seq<(string, string)>)
    ensures |pairs| <= |entries|
    decreases |entries|
  {
    if entries == [] then []
    else
      var last := entries[|entries| - 1];
      QueryPairs(entries[..|entries| - 1]) + (if Truthy(last.1) then [(last.0, ToJsString(last.1))] else [])
  }

  /** A pair is sent exactly for an entry whose value is truthy, with the value as text. */
  lemma {:induction false} QueryPairsMembers(entries: Entries<Json>)
    ensures forall k, v :: (k, v) in entries && Truthy(v) ==> (k, ToJsString(v)) in QueryPairs(entries)
    ensures forall p :: p in QueryPairs(entries) ==> exists v :: (p.0, v) in entries && Truthy(v) && p.1 == ToJsString(v)
    decreases |entries|
  {
    if entries != [] {
      var init, last := entries[..|entries| - 1], entries[|entries| - 1];
      QueryPairsMembers(init);
      assert entries == init + [last];
    }
  }

  /** No truthy value, no query pair. */
  lemma {:induction false} NoTruthyNoPairs(entries: Entries<Json>)
    requires forall i :: 0 <= i < |entries| ==> !Truthy(entries[i].1)
    ensures QueryPairs(entries) == []
    decreases |entries|
  {
    if entries != [] {
      NoTruthyNoPairs(entries[..|entries| - 1]);
    }
  }

  /** `queryParams.toString()`: the `forEach` that appends the truthy entries, then serialization. */
  method QueryString(entries: Entries<Json>) returns (queryString: string)
    ensures queryString == SerializeForm(QueryPairs(entries))
  {
    var queryParams: seq<(string, string)> := [];
    var i := 0;
    while i < |entries|
      invariant 0 <= i <= |entries|
      invariant queryParams == QueryPairs(entries[..i])
    {
      var (key, value) := entries[i];
      assert entries[..i + 1][..i] == entries[..i];
      if Truthy(value) {
        queryParams := queryParams + [(key, ToJsString(value))];
      }
      i := i + 1;
    }
    assert entries[..i] == entries;
    queryString := SerializeForm(queryParams);
  }

  /** The URL of the request: base, the path as written, then `?` and the query when there is one. */
  function TesterUrl(baseApiUrl: string, path: string, entries: Entries<Json>): string
  {
    var queryString := SerializeForm(QueryPairs(entries));
    baseApiUrl + path + (if queryString != [] then "?" + queryString else "")
  }

  /**
   * The URL ends in `?` and a query string exactly when some parameter is
   * truthy, and a server parsing that query string reads back the truthy
   * parameters, in order, with their values as text.
   */
  lemma TesterUrlQuery(baseApiUrl: string, path: string, entries: Entries<Json>)
    ensures QueryPairs(entries) == [] ==> TesterUrl(baseApiUrl, path, entries) == baseApiUrl + path
    ensures QueryPairs(entries) != [] ==> exists q ::
      TesterUrl(baseApiUrl, path, entries) == baseApiUrl + path + "?" + q && ParseForm(q) == Some(QueryPairs(entries))
  {
    var q := SerializeForm(QueryPairs(entries));
    QueryRoundTrip(QueryPairs(entries));
    if QueryPairs(entries) != [] {
      assert TesterUrl(baseApiUrl, path, entries) == baseApiUrl + path + "?" + q;
    }
  }

  /** The headers object: three fixed headers, and `Content-Type` for POST and PUT. */
  function TesterHeaders(token: string, platform: string, httpMethod: string): (hs: Entries<string>)
    ensures UniqueKeys(hs)
    ensures |hs| == if HasBody(httpMethod) then 4 else 3
    ensures Get(hs, "Authorization") == Some("Bearer " + token)
    ensures Get(hs, "x-refresh") == Some(EndpointForm.RefreshPlaceholder)
    ensures Get(hs, "x-platform") == Some(platform)
    ensures Get(hs, "Content-Type") == if HasBody(httpMethod) then Some("application/json") else None
  {
    var fixed := [("Authorization", "Bearer " + token), ("x-refresh", EndpointForm.RefreshPlaceholder), ("x-platform", platform)];
    var extra := if HasBody(httpMethod) then [("Content-Type", "application/json")] else [];
    GetThreePlus(fixed, extra, "Content-Type");
    fixed + extra
  }

  /** `finalUrl` of `handleExecute`: base and path, then `?` and the query string when it is not empty. */
  method BuildUrl(baseApiUrl: string, path: string, entries: Entries<Json>) returns (finalUrl: string)
    ensures finalUrl == TesterUrl(baseApiUrl, path, entries)
  {
    finalUrl := baseApiUrl + path;
    var queryString := QueryString(entries);
    if queryString != [] {
      finalUrl := finalUrl + "?" + queryString;
    }
  }

  /** The `headers` object of `handleExecute`, `Content-Type` assigned last for POST and PUT. */
  method BuildHeaders(token: string, platform: string, httpMethod: string) returns (headers: Entries<string>)
    ensures headers == TesterHeaders(token, platform, httpMethod)
  {
    headers := [("Authorization", "Bearer " + token), ("x-refresh", EndpointForm.RefreshPlaceholder), ("x-platform", platform)];
    if httpMethod == "POST" || httpMethod == "PUT" {
      assert Keys(headers) == ["Authorization", "x-refresh", "x-platform"];
      PutNew(headers, "Content-Type", "application/json");
      headers := Put(headers, "Content-Type", "application/json");
    }
  }

  /** What `fetch` is called with. */
  datatype Request = Request(url: string, httpMethod: string, headers: Entries<string>, body: Option<string>)

  /** The request for the dialog's state: a compact JSON body for POST and PUT, no body otherwise. */
  function RequestFor(config: TesterConfig, baseApiUrl: string, token: string, platform: string,
                      entries: Entries<Json>, body: Json): (r: Request)
    ensures r.url == TesterUrl(baseApiUrl, config.path, entries)
    ensures r.headers == TesterHeaders(token, platform, config.httpMethod)
    ensures r.httpMethod == config.httpMethod
    ensures r.body.Some? <==> HasBody(config.httpMethod)
    ensures HasBody(config.httpMethod) ==> r.body == Some(Compact(body)) && Get(r.headers, "Content-Type") == Some("application/json")
    ensures !HasBody(config.httpMethod) ==> "Content-Type" !in Keys(r.headers)
  {
    var headers := TesterHeaders(token, platform, config.httpMethod);
    assert Keys(headers)[0] == "Authorization" && Keys(headers)[1] == "x-refresh" && Keys(headers)[2] == "x-platform";
    if HasBody(config.httpMethod) then
      assert headers[3] == ("Content-Type", "application/json");
      Request(TesterUrl(baseApiUrl, config.path, entries), config.httpMethod, headers, Some(Compact(body)))
    else
      Request(TesterUrl(baseApiUrl, config.path, entries), config.httpMethod, headers, None)
  }

  /** `RequestFor` assembled field by field, as `handleExecute` assembles the request. */
  lemma RequestFields(config: TesterConfig, baseApiUrl: string, token: string, platform: string,
                      entries: Entries<Json>, body: Json)
    ensures RequestFor(config, baseApiUrl, token, platform, entries, body) ==
      Request(TesterUrl(baseApiUrl, config.path, entries), config.httpMethod, TesterHeaders(token, platform, config.httpMethod),
        if HasBody(config.httpMethod) then Some(Compact(body)) else None)
  {
  }

  /** The URL, headers and body `handleExecute` hands to `fetch`. */
  method ComposeRequest(config: TesterConfig, baseApiUrl: string, token: string, platform: string,
                        entries: Entries<Json>, body: Json) returns (request: Request)
    ensures request == RequestFor(config, baseApiUrl, token, platform, entries, body)
  {
    var finalUrl := BuildUrl(baseApiUrl, config.path, entries);
    var headers := BuildHeaders(token, platform, config.httpMethod);
    var requestBody: Option<string> := None;
    if config.httpMethod == "POST" || config.httpMethod == "PUT" {
      requestBody := Some(Compact(body));
    }
    RequestFields(config, baseApiUrl, token, platform, entries, body);
    request := Request(finalUrl, config.httpMethod, headers, requestBody);
  }

  /** What came back: `fetch` failed, or a response whose `json()` and then `text()` gave these results. */
  datatype Outcome =
    | FetchFailed(message: string)
    | Received(status: nat, statusText: string, json: Option<Json>, text: Result<string>)

  const InitialOutput := "Response will appear here..."
  const LoadingOutput := "Loading..."

  /** `Status: <code> <reason>` and a blank line. */
  function StatusLine(status: nat, statusText: string): string
  {
    "Status: " + Decimal(status) + " " + statusText + "\n\n"
  }

  /** The text the dialog shows for an outcome. */
  function OutputFor(o: Outcome): string
  {
    match o
    case FetchFailed(message) => "Error: " + message
    case Received(status, statusText, json, text) =>
      match json
      case Some(data) => StatusLine(status, statusText) + Pretty(data)
      case None =>
        match text
        case Success(t) => StatusLine(status, statusText) + t
        case Failure(message) => "Error: " + message
  }

  /**
   * The output starts with a status line exactly when a response arrived
   * and either its JSON or its text could be read; the digits after
   * `Status: ` then spell the status code.
   */
  lemma OutputShowsStatus(o: Outcome)
    ensures StartsWith(OutputFor(o), "Status: ") <==> o.Received? && (o.json.Some? || o.text.Success?)
    ensures o.Received? && (o.json.Some? || o.text.Success?) ==>
      var digits := Decimal(o.status);
      OutputFor(o)[8..8 + |digits|] == digits && DigitsValue(OutputFor(o)[8..8 + |digits|]) == o.status
  {
    if o.Received? && (o.json.Some? || o.text.Success?) {
      var rest := if o.json.Some? then Pretty(o.json.value) else o.text.value;
      assert OutputFor(o) == StatusLine(o.status, o.statusText) + rest;
      StatusLineParts(o.status, o.statusText, rest);
      DecimalRoundTrip(o.status);
    } else {
      ErrorNotStatus(OutputFor(o));
    }
  }

  /** The text after a status line starts with `Status: ` and then the status code's digits. */
  lemma StatusLineParts(status: nat, statusText: string, rest: string)
    ensures StartsWith(StatusLine(status, statusText) + rest, "Status: ")
    ensures (StatusLine(status, statusText) + rest)[8..8 + |Decimal(status)|] == Decimal(status)
  {
    var p, d := "Status: ", Decimal(status);
    var t := " " + statusText + "\n\n" + rest;
    assert StatusLine(status, statusText) + rest == p + d + t;
    PrefixParts(p, d, t);
  }

  lemma PrefixParts(p: string, d: string, t: string)
    ensures (p + d + t)[..|p|] == p && (p + d + t)[|p|..|p| + |d|] == d
  {
  }

  lemma ErrorNotStatus(out: string)
    requires out != [] && out[0] == 'E'
    ensures !StartsWith(out, "Status: ")
  {
  }

  /** The dialog. `app` receives the credentials through `onSaveData`. */
  class ApiTesterModal {
    const config: TesterConfig
    const baseApiUrl: string
    const app: AppState
    var token: string
    var platform: string
    var params: Json
    var body: Json
    var responseOutput: string
    var isLoading: bool

    /** Mounting the dialog and running its effect once. */
    constructor(config: TesterConfig, baseApiUrl: string, app: AppState)
      ensures this.config == config && this.baseApiUrl == baseApiUrl && this.app == app
      ensures token == config.token && platform == config.platform
      ensures params == JObject(BlankObject(SeedNames(config.endpoint)))
      ensures body == JObject(if HasBody(config.httpMethod) then BlankObject(BodyNames(config.endpoint)) else [])
      ensures responseOutput == InitialOutput && !isLoading
    {
      this.config := config;
      this.baseApiUrl := baseApiUrl;
      this.app := app;
      token := config.token;
      platform := config.platform;
      params := JObject([]);
      body := JObject([]);
      responseOutput := InitialOutput;
      isLoading := false;
      new;
      var initialParams := InitialParams(config.endpoint);
      params := JObject(initialParams);
      if config.httpMethod == "POST" || config.httpMethod == "PUT" {
        var initialBody := InitialBody(config.endpoint);
        body := JObject(initialBody);
      }
    }

    method SetToken(value: string)
      modifies this
      ensures token == value
      ensures platform == old(platform) && params == old(params) && body == old(body)
      ensures responseOutput == old(responseOutput) && isLoading == old(isLoading)
    {
      token := value;
    }

    method SetPlatform(value: string)
      modifies this
      ensures platform == value
      ensures token == old(token) && params == old(params) && body == old(body)
      ensures responseOutput == old(responseOutput) && isLoading == old(isLoading)
    {
      platform := value;
    }

    /** `handleParamChange`: `{...prev, [name]: value}`. */
    method HandleParamChange(name: string, value: string)
      modifies this
      ensures params == JObject(Put(Spread(old(params)), name, JString(value)))
      ensures token == old(token) && platform == old(platform) && body == old(body)
      ensures responseOutput == old(responseOutput) && isLoading == old(isLoading)
    {
      params := JObject(Put(Spread(params), name, JString(value)));
    }

    /** `handleJsonParamsChange`, given what `JSON.parse` made of the text: `None` keeps the old parameters. */
    method HandleJsonParamsChange(parsed: Option<Json>)
      modifies this
      ensures params == if parsed.Some? then parsed.value else old(params)
      ensures token == old(token) && platform == old(platform) && body == old(body)
      ensures responseOutput == old(responseOutput) && isLoading == old(isLoading)
    {
      if parsed.Some? {
        params := parsed.value;
      }
    }

    /** `handleBodyChange`, given what `JSON.parse` made of the text: `None` keeps the old body. */
    method HandleBodyChange(parsed: Option<Json>)
      modifies this
      ensures body == if parsed.Some? then parsed.value else old(body)
      ensures token == old(token) && platform == old(platform) && params == old(params)
      ensures responseOutput == old(responseOutput) && isLoading == old(isLoading)
    {
      if parsed.Some? {
        body := parsed.value;
      }
    }

    /**
     * `handleExecute` up to the `fetch` call: save the credentials, build the
     * URL, show "Loading...". `Object.entries` throws on `null` parameters,
     * and then nothing after the save happens. The Execute button is
     * disabled while loading, so this starts only when idle.
     */
    method BeginExecute() returns (request: Option<Request>)
      requires !isLoading
      modifies this, app.storage
      ensures app.storage.items == WithTesterData(old(app.storage.items), token, platform)
      ensures ObjectEntries(params).None? ==> request.None? && responseOutput == old(responseOutput) && !isLoading
      ensures ObjectEntries(params).Some? ==>
        request == Some(RequestFor(config, baseApiUrl, token, platform, ObjectEntries(params).value, body)) &&
        isLoading && responseOutput == LoadingOutput
      ensures token == old(token) && platform == old(platform) && params == old(params) && body == old(body)
    {
      app.SaveTesterData(token, platform);
      var entries := ObjectEntries(params);
      if entries.None? {
        return None;
      }
      isLoading := true;
      responseOutput := LoadingOutput;
      var r := ComposeRequest(config, baseApiUrl, token, platform, entries.value, body);
      request := Some(r);
    }

    /** The rest of `handleExecute`: show the outcome and stop loading. */
    method CompleteExecute(outcome: Outcome)
      modifies this
      ensures responseOutput == OutputFor(outcome) && !isLoading
      ensures token == old(token) && platform == old(platform) && params == old(params) && body == old(body)
    {
      var output: string;
      match outcome {
        case FetchFailed(message) =>
          output := "Error: " + message;
        case Received(status, statusText, json, text) =>
          var statusLine := "Status: " + Decimal(status) + " " + statusText + "\n\n";
          if json.Some? {
            output := statusLine + Pretty(json.value);
          } else if text.Success? {
            output := statusLine + text.value;
          } else {
            output := "Error: " + text.message;
          }
      }
      responseOutput := output;
      isLoading := false;
    }

    /**
     * A whole click on Execute whose `fetch` ends in `outcome`: the
     * credentials are saved, and unless the parameters are `null` the
     * dialog ends idle, showing the outcome.
     */
    method Execute(outcome: Outcome) returns (request: Option<Request>)
      requires !isLoading
      modifies this, app.storage
      ensures app.storage.items == WithTesterData(old(app.storage.items), token, platform)
      ensures request.Some? <==> ObjectEntries(params).Some?
      ensures request.Some? ==> request.value == RequestFor(config, baseApiUrl, token, platform, ObjectEntries(params).value, body)
      ensures responseOutput == if request.Some? then OutputFor(outcome) else old(responseOutput)
      ensures !isLoading
      ensures token == old(token) && platform == old(platform) && params == old(params) && body == old(body)
    {
      request := BeginExecute();
      if request.Some? {
        CompleteExecute(outcome);
      }
    }
  }
}
