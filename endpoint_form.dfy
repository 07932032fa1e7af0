/**
 * The "Try it" form of one endpoint: its form state, the handlers that
 * open, close and edit it, and the curl command it generates from the
 * path, the URL-parameter values, the country and the request body.
 */
module EndpointForm {
  import opened Wrappers
  import opened Text
  import opened OrderedMap
  import opened UrlEncoding
  import opened Json
  import opened Catalogue
  import opened Storage
  import App

  /** `formData`: what the user has typed; `urlParams` maps a parameter name to its value. */
  datatype FormData = FormData(
    token: string,
    platform: string,
    country: string,
    urlParams: Entries<string>,
    bodyContent: string)

  /** The form state of a freshly rendered endpoint: credentials from the store, nothing else. */
  function InitialFormData(items: map<string, string>): (f: FormData)
    ensures f.token == StoredToken(items) && f.platform == StoredPlatform(items)
    ensures f.country == [] && f.urlParams == [] && f.bodyContent == []
  {
    FormData(StoredToken(items), StoredPlatform(items), "", [], "")
  }

  /**
   * The body the form starts with: `{}` when the endpoint declares no body
   * parameters, else the two-space-indented JSON object with an empty
   * string for each body parameter.
   */
  function BodyTemplate(bodyParams: seq<ParamSpec>): string
  {
    if |bodyParams| > 0 then Pretty(JObject(BlankObject(Names(bodyParams)))) else "{}"
  }

  /**
   * For distinct body-parameter names that need no JSON escaping, the
   * template holds one `"name": ""` line per parameter, in declared order,
   * each indented by two spaces.
   */
  lemma BodyTemplateLines(bodyParams: seq<ParamSpec>)
    requires |bodyParams| > 0
    requires forall i, j :: 0 <= i < j < |bodyParams| ==> bodyParams[i].name != bodyParams[j].name
    requires forall i, k :: 0 <= i < |bodyParams| && 0 <= k < |bodyParams[i].name| ==> Plain(bodyParams[i].name[k])
    ensures BodyTemplate(bodyParams) == "{" + "\n  " + JoinWith(seq(|bodyParams|, i requires 0 <= i < |bodyParams| =>
      "\"" + bodyParams[i].name + "\"" + ": \"\""), ",\n  ") + "\n" + "}"
  {
    var names := Names(bodyParams);
    DedupDistinct(names);
    BlankBodyText(names);
    PlainBlankLines(bodyParams);
  }

  lemma PlainBlankLines(bodyParams: seq<ParamSpec>)
    requires forall i, k :: 0 <= i < |bodyParams| && 0 <= k < |bodyParams[i].name| ==> Plain(bodyParams[i].name[k])
    ensures BlankLines(Names(bodyParams)) == seq(|bodyParams|, i requires 0 <= i < |bodyParams| =>
      "\"" + bodyParams[i].name + "\"" + ": \"\"")
  {
    var names := Names(bodyParams);
    forall i | 0 <= i < |names|
      ensures BlankLines(names)[i] == "\"" + bodyParams[i].name + "\"" + ": \"\""
    {
      QuotePlainName(names[i]);
    }
  }

  /** The form state when the form is opened: stored credentials, no country or URL values, the body template. */
  function OpenedFormData(items: map<string, string>, bodyParams: seq<ParamSpec>): (f: FormData)
    ensures f.token == StoredToken(items) && f.platform == StoredPlatform(items)
    ensures f.country == [] && f.urlParams == []
    ensures f.bodyContent == BodyTemplate(bodyParams)
    ensures bodyParams == [] ==> f.bodyContent == "{}"
  {
    FormData(StoredToken(items), StoredPlatform(items), "", [], BodyTemplate(bodyParams))
  }

  const UrlParamPrefix := "urlParam_"

  /** The names of the form's inputs. */
  predicate IsInputName(name: string)
  {
    StartsWith(name, UrlParamPrefix) || name == "token" || name == "platform" || name == "country" || name == "bodyContent"
  }

  /**
   * `handleInputChange` on the form state: an input named `urlParam_X`
   * sets the value of URL parameter `X`; any other input sets its own field.
   */
  function WithInput(f: FormData, name: string, value: string): (r: FormData)
    requires IsInputName(name)
    ensures StartsWith(name, UrlParamPrefix) ==>
      r.token == f.token && r.platform == f.platform && r.country == f.country && r.bodyContent == f.bodyContent &&
      forall k :: Get(r.urlParams, k) == if k == name[|UrlParamPrefix|..] then Some(value) else Get(f.urlParams, k)
    ensures !StartsWith(name, UrlParamPrefix) ==> r.urlParams == f.urlParams
    ensures name == "token" ==> r == f.(token := value)
    ensures name == "platform" ==> r == f.(platform := value)
    ensures name == "country" ==> r == f.(country := value)
    ensures name == "bodyContent" ==> r == f.(bodyContent := value)
  {
    if StartsWith(name, UrlParamPrefix) then
      var paramName := ReplaceFirst(name, UrlParamPrefix, "");
      ReplacePrefixDropsIt(name, UrlParamPrefix);
      assert name[0] == 'u';
      forall k ensures Get(Put(f.urlParams, paramName, value), k) == if k == paramName then Some(value) else Get(f.urlParams, k) {
        GetPut(f.urlParams, paramName, value, k);
      }
      f.(urlParams := Put(f.urlParams, paramName, value))
    else if name == "token" then f.(token := value)
    else if name == "platform" then f.(platform := value)
    else if name == "country" then f.(country := value)
    else f.(bodyContent := value)
  }

  /** `path` with the placeholder of `p` replaced, when `p` has a non-empty value. */
  function SubstituteOne(path: string, p: ParamSpec, values: Entries<string>): string
  {
    match Get(values, p.name)
    case Some(v) => if v != [] then ReplaceFirst(path, Placeholder(p.name), v) else path
    case None => path
  }

  /** The path after every URL parameter, in declared order, has had its turn. */
  function Substituted(path: string, params: seq<ParamSpec>, values: Entries<string>): string
    decreases |params|
  {
    if params == [] then path
    else SubstituteOne(Substituted(path, params[..|params| - 1], values), params[|params| - 1], values)
  }

  /** The parameter has no value, or an empty one. */
  predicate Unfilled(values: Entries<string>, name: string)
  {
    Get(values, name).None? || Get(values, name) == Some("")
  }

  /** Parameters without a value leave the path as it is; so does an endpoint without URL parameters. */
  lemma {:induction false} UnfilledLeavesPath(path: string, params: seq<ParamSpec>, values: Entries<string>)
    requires forall i :: 0 <= i < |params| ==> Unfilled(values, params[i].name)
    ensures Substituted(path, params, values) == path
    decreases |params|
  {
    if params != [] {
      UnfilledLeavesPath(path, params[..|params| - 1], values);
    }
  }

  /** In `a{name}b` with no `{` in `a`, the first occurrence of the placeholder is right after `a`. */
  lemma PlaceholderFirstAt(a: string, name: string, b: string)
    requires '{' !in a
    ensures IndexOf(a + Placeholder(name) + b, Placeholder(name)) == Some(|a|)
  {
    var s, p := a + Placeholder(name) + b, Placeholder(name);
    assert s[|a|..|a| + |p|] == p;
    assert OccursAt(s, p, |a|);
    forall j | 0 <= j < |a| ensures !OccursAt(s, p, j) {
      assert s[j] == a[j] != '{';
      assert p[0] == '{';
    }
  }

  /**
   * Filling `a{name}b`: a non-empty value without `$` takes the place of the
   * first placeholder and only that one; `b` stays as it is, even when it
   * holds the placeholder again.
   */
  lemma FillsFirstPlaceholder(a: string, name: string, b: string, required: bool, values: Entries<string>, v: string)
    requires '{' !in a
    requires Get(values, name) == Some(v) && v != [] && '$' !in v
    ensures Substituted(a + Placeholder(name) + b, [ParamSpec(name, required)], values) == a + v + b
  {
    var s := a + Placeholder(name) + b;
    PlaceholderFirstAt(a, name, b);
    assert [ParamSpec(name, required)][..0] == [];
    assert s[..|a|] == a;
    assert s[|a| + |Placeholder(name)|..] == b;
  }

  /**
   * A value is not inserted verbatim: `replace` gives `$&` its special
   * meaning, so the value `$&` writes the placeholder back.
   */
  lemma DollarAmpersandKeepsPlaceholder(a: string, name: string, b: string, required: bool, values: Entries<string>)
    requires '{' !in a
    requires Get(values, name) == Some("$&")
    ensures Substituted(a + Placeholder(name) + b, [ParamSpec(name, required)], values) == a + Placeholder(name) + b
  {
    var s, p := a + Placeholder(name) + b, Placeholder(name);
    PlaceholderFirstAt(a, name, b);
    assert [ParamSpec(name, required)][..0] == [];
    var before, after := s[..|a|], s[|a| + |p|..];
    ExpandMatched(p, before, after);
    assert before == a && after == b;
  }

  /**
   * For a catalogue endpoint, filling its URL parameter with a non-empty
   * value free of `$` and braces leaves no placeholder in the path.
   */
  lemma WellFormedPathFilled(e: EndpointSpec, values: Entries<string>)
    requires WellFormed(e)
    requires forall i :: 0 <= i < |e.urlParams| ==>
      Get(values, e.urlParams[i].name).Some? && var v := Get(values, e.urlParams[i].name).value;
      v != [] && '$' !in v && BraceFree(v)
    ensures BraceFree(Substituted(e.path, e.urlParams, values))
  {
    if e.urlParams != [] {
      var p := e.urlParams[0];
      var v := Get(values, p.name).value;
      var a, b :| BraceFree(a) && BraceFree(b) && e.path == a + Placeholder(p.name) + b;
      assert e.urlParams == [ParamSpec(p.name, p.required)];
      FillsFirstPlaceholder(a, p.name, b, p.required, values, v);
      BraceFreeJoin(a, v, b);
    }
  }

  lemma BraceFreeJoin(a: string, v: string, b: string)
    requires BraceFree(a) && BraceFree(v) && BraceFree(b)
    ensures BraceFree(a + v + b)
  {
  }

  /** `processedPath`: the `forEach` over the URL parameters. */
  method ProcessPath(path: string, urlParams: seq<ParamSpec>, values: Entries<string>) returns (processed: string)
    ensures processed == Substituted(path, urlParams, values)
  {
    processed := path;
    if |urlParams| > 0 {
      var i := 0;
      while i < |urlParams|
        invariant 0 <= i <= |urlParams|
        invariant processed == Substituted(path, urlParams[..i], values)
      {
        var param := urlParams[i];
        var paramValue := Get(values, param.name);
        if paramValue.Some? && paramValue.value != [] {
          processed := ReplaceFirst(processed, Placeholder(param.name), paramValue.value);
        }
        assert urlParams[..i + 1][..i] == urlParams[..i];
        i := i + 1;
      }
      assert urlParams[..i] == urlParams;
    }
  }

  /** The URL of the curl command: base and path, then `?country=` and the escaped country when one is given. */
  function CurlUrl(baseApiUrl: string, processedPath: string, country: string): (r: string)
    ensures country == [] ==> r == baseApiUrl + processedPath
  {
    baseApiUrl + processedPath + (if country == [] then "" else "?" + ("country=" + EncodeUriComponent(country)))
  }

  /** `fullUrl` of `generateCurl`: the country, when given, is the one query parameter. */
  method BuildCurlUrl(baseApiUrl: string, processedPath: string, country: string) returns (fullUrl: string)
    ensures fullUrl == CurlUrl(baseApiUrl, processedPath, country)
  {
    fullUrl := baseApiUrl + processedPath;
    var queryParams: seq<string> := [];
    if country != [] {
      queryParams := queryParams + ["country=" + EncodeUriComponent(country)];
    }
    if |queryParams| > 0 {
      var query := Join(queryParams, '&');
      assert query == "country=" + EncodeUriComponent(country);
      fullUrl := fullUrl + ("?" + query);
    }
  }

  /** The curl command sends a body exactly for POST and PUT with a non-empty body text. */
  predicate SendsBody(httpMethod: string, bodyContent: string)
  {
    HasBody(httpMethod) && bodyContent != []
  }

  const RefreshPlaceholder := "your_refresh_token_here"

  /** `curl -X METHOD "URL"`. */
  function CurlHead(httpMethod: string, url: string): string
  {
    "curl -X " + httpMethod + " \"" + url + "\""
  }

  /** A header on its own continued line: ` \`, a newline, two spaces, `-H "header"`. */
  function HeaderLine(header: string): string
  {
    " \\\n  -H \"" + header + "\""
  }

  /** The data on its own continued line, between single quotes. */
  function DataLine(data: string): string
  {
    " \\\n  -d '" + data + "'"
  }

  /**
   * The generated command: the Authorization, x-refresh and x-platform
   * headers, then the Content-Type header and the body for a POST or PUT
   * with a non-empty body text.
   */
  function CurlText(httpMethod: string, url: string, token: string, platform: string, bodyContent: string): string
  {
    var curl := CurlHead(httpMethod, url) + HeaderLine("Authorization: Bearer " + token)
      + HeaderLine("x-refresh: " + RefreshPlaceholder) + HeaderLine("x-platform: " + platform);
    if SendsBody(httpMethod, bodyContent) then
      curl + HeaderLine("Content-Type: application/json") + DataLine(bodyContent)
    else curl
  }

  /** `curl` of `generateCurl`: the fixed headers, then the body lines when a body is sent. */
  method BuildCurlText(httpMethod: string, url: string, token: string, platform: string, bodyContent: string)
    returns (curl: string)
    ensures curl == CurlText(httpMethod, url, token, platform, bodyContent)
  {
    curl := CurlHead(httpMethod, url) + HeaderLine("Authorization: Bearer " + token)
      + HeaderLine("x-refresh: " + RefreshPlaceholder) + HeaderLine("x-platform: " + platform);
    if (httpMethod == "POST" || httpMethod == "PUT") && bodyContent != [] {
      curl := curl + HeaderLine("Content-Type: application/json") + DataLine(bodyContent);
    }
  }

  /** The headers of the command, in order, as `name: value` texts. */
  function CurlHeaders(token: string, platform: string, withBody: bool): (hs: seq<string>)
    ensures |hs| == if withBody then 4 else 3
  {
    ["Authorization: Bearer " + token, "x-refresh: " + RefreshPlaceholder, "x-platform: " + platform]
      + (if withBody then ["Content-Type: application/json"] else [])
  }

  function HeaderLines(headers: seq<string>): string
  {
    if headers == [] then [] else HeaderLine(headers[0]) + HeaderLines(headers[1..])
  }

  /** A curl command for a method, a URL, a list of headers and optional data. */
  function RenderCurl(httpMethod: string, url: string, headers: seq<string>, data: Option<string>): string
  {
    CurlHead(httpMethod, url) + HeaderLines(headers) + (match data case Some(d) => DataLine(d) case None => "")
  }

  /**
   * The command is `curl -X METHOD "URL"` with the Authorization, x-refresh
   * and x-platform headers, then the Content-Type header and the `-d` data
   * exactly when the method is POST or PUT and the body text is not empty;
   * the body text goes in verbatim.
   */
  lemma CurlTextRendered(httpMethod: string, url: string, token: string, platform: string, bodyContent: string)
    ensures CurlText(httpMethod, url, token, platform, bodyContent) ==
      RenderCurl(httpMethod, url, CurlHeaders(token, platform, SendsBody(httpMethod, bodyContent)),
        if SendsBody(httpMethod, bodyContent) then Some(bodyContent) else None)
  {
    if SendsBody(httpMethod, bodyContent) {
      CurlTextWithBody(httpMethod, url, token, platform, bodyContent);
    } else {
      CurlTextWithoutBody(httpMethod, url, token, platform, bodyContent);
    }
  }

  lemma HeaderLinesOf3(h0: string, h1: string, h2: string)
    ensures HeaderLines([h0, h1, h2]) == HeaderLine(h0) + HeaderLine(h1) + HeaderLine(h2)
  {
    assert [h0, h1, h2][1..] == [h1, h2] && [h1, h2][1..] == [h2] && [h2][1..] == [];
    assert HeaderLines([h2]) == HeaderLine(h2) + [];
    assert HeaderLine(h2) + [] == HeaderLine(h2);
    assert HeaderLines([h1, h2]) == HeaderLine(h1) + HeaderLine(h2);
  }

  lemma HeaderLinesOf4(h0: string, h1: string, h2: string, h3: string)
    ensures HeaderLines([h0, h1, h2, h3]) == HeaderLine(h0) + HeaderLine(h1) + HeaderLine(h2) + HeaderLine(h3)
  {
    assert [h0, h1, h2, h3][1..] == [h1, h2, h3];
    HeaderLinesOf3(h1, h2, h3);
    var l0, l1, l2, l3 := HeaderLine(h0), HeaderLine(h1), HeaderLine(h2), HeaderLine(h3);
    assert l0 + (l1 + l2 + l3) == l0 + l1 + l2 + l3;
  }

  lemma CurlTextWithBody(httpMethod: string, url: string, token: string, platform: string, bodyContent: string)
    requires SendsBody(httpMethod, bodyContent)
    ensures CurlText(httpMethod, url, token, platform, bodyContent) ==
      RenderCurl(httpMethod, url, CurlHeaders(token, platform, true), Some(bodyContent))
  {
    var h0, h1, h2, h3 := "Authorization: Bearer " + token, "x-refresh: " + RefreshPlaceholder, "x-platform: " + platform,
      "Content-Type: application/json";
    assert CurlHeaders(token, platform, true) == [h0, h1, h2, h3];
    RenderFour(httpMethod, url, h0, h1, h2, h3, bodyContent);
  }

  lemma RenderFour(httpMethod: string, url: string, h0: string, h1: string, h2: string, h3: string, d: string)
    ensures RenderCurl(httpMethod, url, [h0, h1, h2, h3], Some(d)) ==
      CurlHead(httpMethod, url) + HeaderLine(h0) + HeaderLine(h1) + HeaderLine(h2) + HeaderLine(h3) + DataLine(d)
  {
    HeaderLinesOf4(h0, h1, h2, h3);
    var head, l0, l1, l2, l3 := CurlHead(httpMethod, url), HeaderLine(h0), HeaderLine(h1), HeaderLine(h2), HeaderLine(h3);
    assert head + (l0 + l1 + l2 + l3) + DataLine(d) == head + l0 + l1 + l2 + l3 + DataLine(d);
  }

  lemma CurlTextWithoutBody(httpMethod: string, url: string, token: string, platform: string, bodyContent: string)
    requires !SendsBody(httpMethod, bodyContent)
    ensures CurlText(httpMethod, url, token, platform, bodyContent) ==
      RenderCurl(httpMethod, url, CurlHeaders(token, platform, false), None)
  {
    var h0, h1, h2 := "Authorization: Bearer " + token, "x-refresh: " + RefreshPlaceholder, "x-platform: " + platform;
    assert CurlHeaders(token, platform, false) == [h0, h1, h2];
    HeaderLinesOf3(h0, h1, h2);
    var head, l0, l1, l2 := CurlHead(httpMethod, url), HeaderLine(h0), HeaderLine(h1), HeaderLine(h2);
    assert head + (l0 + l1 + l2) + "" == head + l0 + l1 + l2;
  }

  /** A `+` never comes out of `encodeURIComponent`, so form decoding and plain decoding agree on it. */
  lemma {:induction false} DecodeWithoutPlus(t: string)
    requires '+' !in t
    ensures PercentDecode(t, true) == PercentDecode(t, false)
    decreases |t|
  {
    if t != [] {
      if t[0] == '%' && |t| >= 3 && IsHex(t[1]) && IsHex(t[2]) {
        assert '+' !in t[3..];
        DecodeWithoutPlus(t[3..]);
      } else {
        assert '+' !in t[1..];
        DecodeWithoutPlus(t[1..]);
      }
    }
  }

  lemma {:induction false} FormSafeUnchanged(s: string)
    requires forall i :: 0 <= i < |s| ==> FormSafe(s[i])
    ensures FormUrlEncode(s) == s
  {
    if s != [] {
      FormSafeUnchanged(s[1..]);
      assert [s[0]] + s[1..] == s;
    }
  }

  /** `key=value` with no `&` anywhere and no `=` in the key is one piece, split after the key. */
  lemma SinglePiece(key: string, value: string)
    requires '&' !in key && '&' !in value && '=' !in key
    ensures Split(key + "=" + value, '&') == [key + "=" + value]
    ensures ParsePiece(key + "=" + value) == (key, value)
  {
    var t := key + "=" + value;
    assert '&' !in t by {
      forall i | 0 <= i < |t| ensures t[i] != '&' {
        if i < |key| { assert t[i] == key[i]; }
        else if i > |key| { assert t[i] == value[i - |key| - 1]; }
      }
    }
    assert t[|key|] == '=';
    var i := FirstIndex(t, '=');
    assert t[..|key|] == key;
    assert i == |key|;
    assert t[..i] == key && t[i + 1..] == value;
  }

  /** The query text `country=...` is a single piece, split at its only `=`. */
  lemma CountryPiece(enc: string)
    requires forall i :: 0 <= i < |enc| ==> UriUnreserved(enc[i]) || enc[i] == '%'
    ensures Split("country=" + enc, '&') == ["country=" + enc]
    ensures ParsePiece("country=" + enc) == ("country", enc)
  {
    CountryKeyPlain();
    NoAmpersand(enc);
    SinglePiece("country", enc);
    assert "country" + "=" + enc == "country=" + enc;
  }

  lemma CountryKeyPlain()
    ensures '&' !in "country" && '=' !in "country"
  {
    var key := "country";
    forall i | 0 <= i < |key| ensures key[i] != '&' && key[i] != '=' {}
  }

  lemma NoAmpersand(enc: string)
    requires forall i :: 0 <= i < |enc| ==> UriUnreserved(enc[i]) || enc[i] == '%'
    ensures '&' !in enc
  {
    forall i | 0 <= i < |enc| ensures enc[i] != '&' {}
  }

  /** The name `country` needs no escaping, so it decodes to itself. */
  lemma CountryNameDecodes()
    ensures DecodeFormText("country") == Some("country")
  {
    var key := "country";
    forall j | 0 <= j < |key| ensures FormSafe(key[j]) {}
    FormSafeUnchanged(key);
    FormRoundTrip(key);
  }

  /** The escaped country decodes, as a form value, to the country. */
  lemma CountryValueDecodes(country: string)
    ensures DecodeFormText(EncodeUriComponent(country)) == Some(country)
  {
    var enc := EncodeUriComponent(country);
    UriEncodedChars(country);
    assert '+' !in enc by {
      forall j | 0 <= j < |enc| ensures enc[j] != '+' {}
    }
    DecodeWithoutPlus(enc);
    UriComponentRoundTrip(country);
  }

  lemma DecodeOnePiece(t: string, n: string, v: string, n': string, v': string)
    requires t != [] && ParsePiece(t) == (n, v)
    requires DecodeFormText(n) == Some(n') && DecodeFormText(v) == Some(v')
    ensures DecodePairs([t]) == Some([(n', v')])
  {
    assert [t][1..] == [];
    assert DecodePairs([t][1..]) == Some([]);
    assert [(n', v')] + [] == [(n', v')];
  }

  /** A server that parses the curl command's query string reads back the country that was typed. */
  lemma CountryQueryReadsBack(country: string)
    ensures ParseForm("country=" + EncodeUriComponent(country)) == Some([("country", country)])
  {
    var enc := EncodeUriComponent(country);
    var t := "country=" + enc;
    UriEncodedChars(country);
    CountryPiece(enc);
    CountryNameDecodes();
    CountryValueDecodes(country);
    DecodeOnePiece(t, "country", enc, "country", country);
  }

  /** One endpoint's section of the page, with its "Try it" form. */
  class EndpointView {
    const endpoint: EndpointSpec
    const baseApiUrl: string
    const storage: LocalStorage
    var showTryForm: bool
    var formData: FormData
    var curlCommand: string

    constructor(endpoint: EndpointSpec, baseApiUrl: string, storage: LocalStorage)
      ensures this.endpoint == endpoint && this.baseApiUrl == baseApiUrl && this.storage == storage
      ensures !showTryForm && formData == InitialFormData(storage.items) && curlCommand == []
    {
      this.endpoint := endpoint;
      this.baseApiUrl := baseApiUrl;
      this.storage := storage;
      showTryForm := false;
      formData := InitialFormData(storage.items);
      curlCommand := "";
    }

    /** `handleInputChange`: the input's own value changes and nothing else. */
    method HandleInputChange(name: string, value: string)
      requires IsInputName(name)
      modifies this
      ensures formData == WithInput(old(formData), name, value)
      ensures showTryForm == old(showTryForm) && curlCommand == old(curlCommand)
    {
      formData := WithInput(formData, name, value);
    }

    /**
     * `handleTryIt`: opening the form resets it from the store and clears
     * the command; closing it only hides it.
     */
    method HandleTryIt()
      modifies this
      ensures showTryForm == !old(showTryForm)
      ensures !old(showTryForm) ==> formData == OpenedFormData(storage.items, endpoint.bodyParams) && curlCommand == []
      ensures old(showTryForm) ==> formData == old(formData) && curlCommand == old(curlCommand)
    {
      var wasShown := showTryForm;
      showTryForm := !wasShown;
      if !wasShown {
        formData := OpenedFormData(storage.items, endpoint.bodyParams);
        curlCommand := "";
      }
    }

    /** `handleTestApi`: hands the endpoint, its method and its path to the application. */
    method HandleTestApi(app: App.AppState)
      modifies app
      ensures app.apiTesterConfig == App.ConfigFor(app.storage.items, endpoint, endpoint.httpMethod, endpoint.path)
      ensures app.showApiTesterModal
      ensures app.darkMode == old(app.darkMode)
    {
      app.HandleApiTest(endpoint, endpoint.httpMethod, endpoint.path);
    }

    /**
     * `generateCurl`: builds the command from the current form state and
     * saves the token and the platform to the store.
     */
    method GenerateCurl()
      modifies this, storage
      ensures curlCommand == CurlText(endpoint.httpMethod,
        CurlUrl(baseApiUrl, Substituted(endpoint.path, endpoint.urlParams, formData.urlParams), formData.country),
        formData.token, formData.platform, formData.bodyContent)
      ensures storage.items == WithTesterData(old(storage.items), formData.token, formData.platform)
      ensures formData == old(formData) && showTryForm == old(showTryForm)
    {
      var processedPath := ProcessPath(endpoint.path, endpoint.urlParams, formData.urlParams);
      var fullUrl := BuildCurlUrl(baseApiUrl, processedPath, formData.country);
      var curl := BuildCurlText(endpoint.httpMethod, fullUrl, formData.token, formData.platform, formData.bodyContent);
      curlCommand := curl;
      storage.SetItem(TokenKey, formData.token);
      storage.SetItem(PlatformKey, formData.platform);
    }
  }
}
