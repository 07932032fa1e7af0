/**
 * The JSON values the components hold in state (`params`, `body`) and the
 * JavaScript operations applied to them: `JSON.stringify` with and without
 * indentation (ECMA-262, section 25.5.2), `String(v)`, truthiness,
 * `Object.entries` and object spread.
 */
module Json {
  import opened Wrappers
  import opened Text
  import opened OrderedMap

  /**
   * A value `JSON.parse` can produce. A number is kept as the text
   * `Number.prototype.toString` gives for it, which is also what
   * `JSON.stringify` writes.
   */
  datatype Json =
    | JNull
    | JBool(b: bool)
    | JNumber(repr: string)
    | JString(s: string)
    | JArray(elems: seq<Json>)
    | JObject(members: Entries<Json>)

  /** Lower-case hexadecimal digit, as `JSON.stringify` writes `\u00XX`. */
  function LowerHex(d: nat): char
    requires d < 16
  {
    "0123456789abcdef"[d]
  }

  /** One character of a JSON string literal (QuoteJSONString, section 25.5.2.3). */
  function QuoteChar(c: char): (r: string)
    ensures |r| >= 1
    ensures r[0] == '\\' || r == [c]
  {
    match c
    case '\U{8}' => "\\b"
    case '\t' => "\\t"
    case '\n' => "\\n"
    case '\U{C}' => "\\f"
    case '\r' => "\\r"
    case '"' => "\\\""
    case '\\' => "\\\\"
    case _ =>
      if c as int < 0x20 then ['\\', 'u', '0', '0', LowerHex(c as int / 16), LowerHex(c as int % 16)]
      else [c]
  }

  function QuoteChars(s: string): string
  {
    if s == [] then [] else QuoteChar(s[0]) + QuoteChars(s[1..])
  }

  /** A character `JSON.stringify` writes as it is. */
  predicate Plain(c: char)
  {
    c as int >= 0x20 && c != '"' && c != '\\'
  }

  lemma {:induction false} QuotePlain(s: string)
    requires forall i :: 0 <= i < |s| ==> Plain(s[i])
    ensures QuoteChars(s) == s
  {
    if s != [] {
      QuotePlain(s[1..]);
      assert [s[0]] + s[1..] == s;
    }
  }

  /** A JSON string literal for `s`. */
  function Quote(s: string): (r: string)
    ensures |r| >= 2 && r[0] == '"' && r[|r| - 1] == '"'
  {
    "\"" + QuoteChars(s) + "\""
  }

  /**
   * `JSON.stringify(v, null, gap)` at nesting `indent` (SerializeJSONProperty,
   * SerializeJSONObject and SerializeJSONArray of section 25.5.2): with an
   * empty `gap` everything is on one line; otherwise each member or element
   * is on its own line, indented one more `gap` than its container.
   */
  function Stringify(v: Json, gap: string, indent: string): string
    decreases v, 1
  {
    match v
    case JNull => "null"
    case JBool(b) => if b then "true" else "false"
    case JNumber(repr) => repr
    case JString(s) => Quote(s)
    case JArray(xs) =>
      if xs == [] then "[]" else Bracket("[", ElementTexts(xs, gap, indent + gap), "]", gap, indent)
    case JObject(ms) =>
      if ms == [] then "{}" else Bracket("{", MemberTexts(ms, gap, indent + gap), "}", gap, indent)
  }

  /** The elements of an array, each serialized at nesting `inner`. */
  function ElementTexts(xs: seq<Json>, gap: string, inner: string): (r: seq<string>)
    ensures |r| == |xs|
    decreases JArray(xs), 0
  {
    seq(|xs|, i requires 0 <= i < |xs| => Stringify(xs[i], gap, inner))
  }

  /** The `"key": value` members of an object, each value serialized at nesting `inner`. */
  function MemberTexts(ms: Entries<Json>, gap: string, inner: string): (r: seq<string>)
    ensures |r| == |ms|
    decreases JObject(ms), 0
  {
    seq(|ms|, i requires 0 <= i < |ms| => Quote(ms[i].0) + (if gap == [] then ":" else ": ") + Stringify(ms[i].1, gap, inner))
  }

  /** Puts non-empty `parts` between brackets, one per line when `gap` is not empty. */
  function Bracket(open: string, parts: seq<string>, close: string, gap: string, indent: string): string
  {
    if gap == [] then open + JoinWith(parts, ",") + close
    else
      var inner := indent + gap;
      open + "\n" + inner + JoinWith(parts, ",\n" + inner) + "\n" + indent + close
  }

  /** `JSON.stringify(v)`. */
  function Compact(v: Json): string
  {
    Stringify(v, "", "")
  }

  /** `JSON.stringify(v, null, 2)`. */
  function Pretty(v: Json): string
  {
    Stringify(v, "  ", "")
  }

  /** `if (v)`: the falsy JSON values are `null`, `false`, `0` and `""`. */
  predicate Truthy(v: Json)
  {
    match v
    case JNull => false
    case JBool(b) => b
    case JNumber(repr) => repr != "0"
    case JString(s) => s != []
    case _ => true
  }

  /** `String(v)`: an array joins its elements with `,`, writing `null` as nothing. */
  function ToJsString(v: Json): string
    decreases v
  {
    match v
    case JNull => "null"
    case JBool(b) => if b then "true" else "false"
    case JNumber(repr) => repr
    case JString(s) => s
    case JArray(xs) =>
      JoinWith(seq(|xs|, i requires 0 <= i < |xs| => if xs[i].JNull? then "" else ToJsString(xs[i])), ",")
    case JObject(_) => "[object Object]"
  }

  /** The index keys `"0"`, `"1"`, ... paired with `vs`. */
  function Indexed(vs: seq<Json>): (m: Entries<Json>)
    ensures |m| == |vs|
    ensures forall i :: 0 <= i < |vs| ==> m[i] == (Decimal(i), vs[i])
  {
    seq(|vs|, i requires 0 <= i < |vs| => (Decimal(i), vs[i]))
  }

  /**
   * The index keys are distinct, and the key of index `i` reads back the
   * `i`-th element.
   */
  lemma IndexedLookup(vs: seq<Json>)
    ensures UniqueKeys(Indexed(vs))
    ensures forall i :: 0 <= i < |vs| ==> Get(Indexed(vs), Decimal(i)) == Some(vs[i])
  {
    var m := Indexed(vs);
    forall i, j | 0 <= i < j < |m| ensures m[i].0 != m[j].0 {
      if Decimal(i) == Decimal(j) {
        DecimalInjective(i, j);
      }
    }
    forall i | 0 <= i < |vs| ensures Get(m, Decimal(i)) == Some(vs[i]) {
      GetUnique(m, i);
    }
  }

  /**
   * `Object.entries(v)`: `None` for `null`, which throws a TypeError; a
   * string gives one entry per character and an array one per element.
   */
  function ObjectEntries(v: Json): (r: Option<Entries<Json>>)
    ensures r.None? <==> v.JNull?
    ensures v.JObject? ==> r == Some(v.members)
  {
    match v
    case JNull => None
    case JBool(_) => Some([])
    case JNumber(_) => Some([])
    case JString(s) => Some(Indexed(seq(|s|, i requires 0 <= i < |s| => JString([s[i]]))))
    case JArray(xs) => Some(Indexed(xs))
    case JObject(ms) => Some(ms)
  }

  /** The own entries `{...v}` copies: those of `Object.entries`, and none for `null`. */
  function Spread(v: Json): Entries<Json>
  {
    ObjectEntries(v).GetOr([])
  }

  /** The object built by `names.reduce((acc, n) => ({...acc, [n]: ''}), {})`. */
  function BlankObject(names: seq<string>): Entries<Json>
  {
    if names == [] then [] else Put(BlankObject(names[..|names| - 1]), names[|names| - 1], JString(""))
  }

  /** The object's keys are the names once each, in first-seen order, and every value is "". */
  lemma {:induction false} BlankObjectShape(names: seq<string>)
    ensures Keys(BlankObject(names)) == Dedup(names)
    ensures forall i :: 0 <= i < |BlankObject(names)| ==> BlankObject(names)[i].1 == JString("")
  {
    if names != [] {
      var prev := BlankObject(names[..|names| - 1]);
      BlankObjectShape(names[..|names| - 1]);
      PutKeysDedup(prev, names, JString(""));
      PutBlank(prev, names[|names| - 1]);
    }
  }

  lemma {:induction false} PutBlank(m: Entries<Json>, k: string)
    requires forall i :: 0 <= i < |m| ==> m[i].1 == JString("")
    ensures forall i :: 0 <= i < |Put(m, k, JString(""))| ==> Put(m, k, JString(""))[i].1 == JString("")
  {
    if m != [] && m[0].0 != k {
      PutBlank(m[1..], k);
      assert Put(m, k, JString("")) == [m[0]] + Put(m[1..], k, JString(""));
    }
  }

  /** A blank object has one member per distinct name, so no key repeats. */
  lemma BlankObjectUnique(names: seq<string>)
    ensures UniqueKeys(BlankObject(names))
  {
    var m := BlankObject(names);
    BlankObjectShape(names);
    forall i, j | 0 <= i < j < |m|
      ensures m[i].0 != m[j].0
    {
      assert Keys(m)[i] == m[i].0 && Keys(m)[j] == m[j].0;
    }
  }

  /** The member lines of a pretty-printed object whose values are all `""`. */
  function BlankLines(names: seq<string>): seq<string>
  {
    seq(|names|, i requires 0 <= i < |names| => Quote(names[i]) + ": \"\"")
  }

  lemma BlankLine(k: string)
    ensures Quote(k) + ": " + Stringify(JString(""), "  ", "  ") == Quote(k) + ": \"\""
  {
    assert Stringify(JString(""), "  ", "  ") == Quote("") == "\"\"";
    var q := Quote(k);
    assert q + ": " + "\"\"" == q + (": " + "\"\"");
  }

  lemma {:induction false} BlankMembers(names: seq<string>)
    ensures MemberTexts(BlankObject(names), "  ", "  ") == BlankLines(Dedup(names))
  {
    var m := BlankObject(names);
    BlankObjectShape(names);
    var parts, want := MemberTexts(m, "  ", "  "), BlankLines(Dedup(names));
    forall i | 0 <= i < |m|
      ensures parts[i] == want[i]
    {
      assert m[i].0 == Keys(m)[i] == Dedup(names)[i];
      BlankLine(m[i].0);
    }
  }

  /** A pretty-printed top-level container: one part per line, indented by two spaces. */
  lemma PrettyBracket(open: string, parts: seq<string>, close: string)
    ensures Bracket(open, parts, close, "  ", "") == open + "\n  " + JoinWith(parts, ",\n  ") + "\n" + close
  {
    var gap: string := "  ";
    assert [] + gap == gap;
    var body := JoinWith(parts, ",\n" + gap);
    assert ",\n" + gap == ",\n  ";
    assert open + "\n" + gap == open + "\n  ";
    assert open + "\n" + gap + body + "\n" + [] + close == open + "\n  " + body + "\n" + close;
  }

  /**
   * The request-body template of the "Try it" form: one `"name": ""` line
   * per distinct name, in first-occurrence order, indented by two spaces,
   * between braces; a name that needs no escaping appears as it is.
   */
  lemma BlankBodyText(names: seq<string>)
    requires |names| > 0
    ensures Pretty(JObject(BlankObject(names))) == "{" + "\n  " + JoinWith(BlankLines(Dedup(names)), ",\n  ") + "\n" + "}"
  {
    var m := BlankObject(names);
    BlankMembers(names);
    assert names[0] in Dedup(names);
    assert |m| > 0;
    var gap: string := "  ";
    assert [] + gap == gap;
    assert Pretty(JObject(m)) == Bracket("{", BlankLines(Dedup(names)), "}", gap, "");
    PrettyBracket("{", BlankLines(Dedup(names)), "}");
  }

  /** A name without quotes, backslashes or control characters is quoted as it is. */
  lemma QuotePlainName(k: string)
    requires forall i :: 0 <= i < |k| ==> Plain(k[i])
    ensures Quote(k) == "\"" + k + "\""
  {
    QuotePlain(k);
  }
}
