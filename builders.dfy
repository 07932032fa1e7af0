/**
 * The two request builders side by side: the curl command of the "Try it"
 * form and the request of the API tester describe the same endpoint call,
 * but differ in how they fill the path, escape the query and choose the
 * headers. These lemmas pin down where they agree and where they do not.
 */
module Builders {
  import opened Wrappers
  import opened Text
  import opened OrderedMap
  import opened UrlEncoding
  import opened Json
  import opened Catalogue
  import opened EndpointForm
  import opened ApiTester

  /** `name: value` for each header, as curl's `-H` wants it. */
  function HeaderTexts(headers: Entries<string>): (r: seq<string>)
    ensures |r| == |headers|
  {
    seq(|headers|, i requires 0 <= i < |headers| => headers[i].0 + ": " + headers[i].1)
  }

  lemma HeaderTextLiterals(token: string, platform: string)
    ensures "Authorization" + ": " + ("Bearer " + token) == "Authorization: Bearer " + token
    ensures "x-refresh" + ": " + RefreshPlaceholder == "x-refresh: " + RefreshPlaceholder
    ensures "x-platform" + ": " + platform == "x-platform: " + platform
    ensures "Content-Type" + ": " + "application/json" == "Content-Type: application/json"
  {
    assert "Authorization" + ": " + "Bearer " == "Authorization: Bearer ";
    assert "Authorization" + ": " + ("Bearer " + token) == ("Authorization" + ": " + "Bearer ") + token;
    assert "x-refresh" + ": " == "x-refresh: ";
  }

  /** The tester's headers, written as `name: value`, are the curl headers for a command that sends a body exactly for POST and PUT. */
  lemma TesterHeaderTexts(token: string, platform: string, httpMethod: string)
    ensures HeaderTexts(TesterHeaders(token, platform, httpMethod)) == CurlHeaders(token, platform, HasBody(httpMethod))
  {
    var fixed := [("Authorization", "Bearer " + token), ("x-refresh", RefreshPlaceholder), ("x-platform", platform)];
    var hs := fixed + if HasBody(httpMethod) then [("Content-Type", "application/json")] else [];
    assert TesterHeaders(token, platform, httpMethod) == hs;
    var t, c := HeaderTexts(hs), CurlHeaders(token, platform, HasBody(httpMethod));
    HeaderTextLiterals(token, platform);
    assert t[0] == c[0] && t[1] == c[1] && t[2] == c[2];
    assert HasBody(httpMethod) ==> t[3] == c[3];
    assert t == c;
  }

  /**
   * Both builders send the same headers in the same order, except that the
   * curl command leaves out `Content-Type` for a POST or PUT whose body text
   * is empty, where the tester still sends it.
   */
  lemma SameHeadersUnlessEmptyBody(token: string, platform: string, httpMethod: string, bodyContent: string)
    ensures HeaderTexts(TesterHeaders(token, platform, httpMethod)) == CurlHeaders(token, platform, SendsBody(httpMethod, bodyContent))
      <==> !(HasBody(httpMethod) && bodyContent == [])
  {
    TesterHeaderTexts(token, platform, httpMethod);
    var withBody, sends := HasBody(httpMethod), SendsBody(httpMethod, bodyContent);
    assert |CurlHeaders(token, platform, withBody)| == |CurlHeaders(token, platform, sends)| <==> withBody == sends;
  }

  /** `country` needs no escaping in either encoder. */
  lemma CountryKeyUnescaped()
    ensures FormUrlEncode(CountryKey) == CountryKey
  {
    var key := CountryKey;
    forall j | 0 <= j < |key| ensures FormSafe(key[j]) {}
    FormSafeUnchanged(key);
  }

  /** Two texts with a common head are equal exactly when their tails are. */
  lemma CommonHead(head: string, a: string, b: string)
    ensures head + a == head + b <==> a == b
  {
    if head + a == head + b {
      assert a == (head + a)[|head|..];
      assert b == (head + b)[|head|..];
    }
  }

  /** A query string of one pair is the pair's encoded name, `=`, and its encoded value. */
  lemma SerializeOne(name: string, value: string)
    ensures SerializeForm([(name, value)]) == FormUrlEncode(name) + "=" + FormUrlEncode(value)
  {
  }

  /**
   * For a country typed alone, the curl command's query text and the
   * tester's query string are the same exactly when the country holds none
   * of space, `!`, `'`, `(`, `)` and `~`.
   */
  lemma CountryQueriesAgreeIff(country: string)
    ensures "country=" + EncodeUriComponent(country) == SerializeForm([(CountryKey, country)])
      <==> forall i :: 0 <= i < |country| ==> !EncodersDiffer(country[i])
  {
    CountryKeyUnescaped();
    SerializeOne(CountryKey, country);
    EncodersAgreeIff(country);
    assert "country=" == CountryKey + "=";
    CommonHead("country=", EncodeUriComponent(country), FormUrlEncode(country));
  }

  /** The query pairs of a dialog holding only a non-empty country. */
  lemma CountryOnlyPairs(country: string)
    requires country != []
    ensures QueryPairs([(CountryKey, JString(country))]) == [(CountryKey, country)]
  {
    var entries := [(CountryKey, JString(country))];
    assert entries[..0] == [];
  }

  /**
   * For an endpoint without URL parameters and a dialog whose only truthy
   * parameter is the country, both builders produce the same URL exactly
   * when the two encoders agree on the country.
   */
  lemma SameUrlIff(e: EndpointSpec, baseApiUrl: string, values: Entries<string>, country: string)
    requires e.urlParams == [] && country != []
    ensures CurlUrl(baseApiUrl, Substituted(e.path, e.urlParams, values), country)
      == TesterUrl(baseApiUrl, e.path, [(CountryKey, JString(country))])
      <==> forall i :: 0 <= i < |country| ==> !EncodersDiffer(country[i])
  {
    CountryOnlyPairs(country);
    var q := SerializeForm([(CountryKey, country)]);
    var c := "country=" + EncodeUriComponent(country);
    var head := baseApiUrl + e.path;
    assert TesterUrl(baseApiUrl, e.path, [(CountryKey, JString(country))]) == head + ("?" + q);
    assert Substituted(e.path, e.urlParams, values) == e.path;
    assert CurlUrl(baseApiUrl, e.path, country) == head + ("?" + c);
    CountryQueriesAgreeIff(country);
    CommonHead(head, "?" + c, "?" + q);
    CommonHead("?", c, q);
  }

  lemma AlnumUnescaped(s: string)
    requires forall i :: 0 <= i < |s| ==> IsAsciiAlnum(s[i])
    ensures FormUrlEncode(s) == s
  {
    FormSafeUnchanged(s);
  }

  // The `get-mine` lemmas below show, on one endpoint with a URL parameter,
  // the case `SameUrlIff` excludes: the curl command fills the placeholder,
  // while the tester keeps it and sends the parameter in the query.

  /** `get-mine`'s curl path with `id` 42. */
  lemma MineCurlPath()
    ensures Substituted(GetMine.path, GetMine.urlParams, [("id", "42")]) == "/mines/42"
  {
    var a := "/mines/";
    forall i | 0 <= i < |a| ensures a[i] != '{' {}
    assert GetMine.path == a + Placeholder("id") + "";
    assert Get([("id", "42")], "id") == Some("42");
    FillsFirstPlaceholder(a, "id", "", true, [("id", "42")], "42");
  }

  /** `get-mine`'s tester query with `id` 42. */
  lemma MineTesterQuery()
    ensures QueryPairs([(CountryKey, JString("")), ("id", JString("42"))]) == [("id", "42")]
  {
    var entries := [(CountryKey, JString("")), ("id", JString("42"))];
    assert entries[..1] == [(CountryKey, JString(""))] && entries[..1][..0] == [];
  }

  /** The tester's query string for `get-mine` with `id` 42. */
  lemma MineQuery()
    ensures SerializeForm(QueryPairs([(CountryKey, JString("")), ("id", JString("42"))])) == "id=42"
  {
    MineTesterQuery();
    AlnumUnescaped("id");
    AlnumUnescaped("42");
    SerializeOne("id", "42");
  }

  /** `get-mine` with `id` 42: the curl command fills the placeholder. */
  lemma MineCurlUrl(baseApiUrl: string)
    ensures CurlUrl(baseApiUrl, Substituted(GetMine.path, GetMine.urlParams, [("id", "42")]), "") == baseApiUrl + "/mines/42"
  {
    MineCurlPath();
  }

  /** `get-mine` with `id` 42: the tester sends the path as written and `id` as a query parameter. */
  lemma MineTesterUrl(baseApiUrl: string)
    ensures TesterUrl(baseApiUrl, GetMine.path, [(CountryKey, JString("")), ("id", JString("42"))]) == baseApiUrl + "/mines/{id}?id=42"
  {
    MineQuery();
    MineLiteral(GetMine.path);
  }

  lemma MineLiteral(path: string)
    requires path == "/mines/{id}"
    ensures path + ("?" + "id=42") == "/mines/{id}?id=42"
  {
  }

  /** The tester's seeded parameters for `get-mine`: `country` and `id`, both empty. */
  lemma MineSeed()
    ensures BlankObject(SeedNames(Some(GetMine))) == [(CountryKey, JString("")), ("id", JString(""))]
  {
    var names := SeedNames(Some(GetMine));
    assert names == [CountryKey, "id"];
    assert names[..1] == [CountryKey] && names[..1][..0] == [];
    assert BlankObject([CountryKey]) == [(CountryKey, JString(""))];
    assert "id" != CountryKey;
    assert Put([(CountryKey, JString(""))], "id", JString("")) == [(CountryKey, JString("")), ("id", JString(""))];
  }
}
