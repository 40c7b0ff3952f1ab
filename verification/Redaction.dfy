/**
 Redaction of upstream responses (internal/adapter/registry/redact.go): a whitelist at the top, a
 word list at every depth, and URLs without a query that names a credential.
 */
module Redaction {
  import opened Results
  import opened Text

  datatype Json =
    | Null
    | Bool(b: bool)
    | Number(digits: string)
    | Str(text: string)
    | Arr(items: seq<Json>)
    | Obj(fields: map<string, Json>)

  const MARKER := "[redacted]"

  const WORDS: seq<string> :=
    ["authorization", "cookie", "token", "apikey", "password", "secret", "privatekey", "credential"]

  // ----- Names -----

  predicate Dropped(c: char) { c == '-' || c == '_' || c == ' ' }

  function Without(s: string): string {
    if s == "" then ""
    else Without(s[..|s| - 1]) + (if Dropped(s[|s| - 1]) then "" else [s[|s| - 1]])
  }

  function Normalize(key: string): string {
    Without(LowerText(key))
  }

  /** A word of the list, or a rule of the capability, occurs in the normalised name. */
  predicate Sensitive(key: string, extra: seq<string>) {
    || (exists w :: w in WORDS && Contains(Normalize(key), w))
    || (exists w :: w in extra && w != "" && Contains(Normalize(key), w))
  }

  method ContainsWord(s: string, word: string) returns (r: bool)
    ensures r == Contains(s, word)
  {
    if |word| > |s| { return false; }
    for i := 0 to |s| - |word| + 1
      invariant forall k: nat :: k < i ==> !OccursAt(s, word, k)
    {
      if s[i..i + |word|] == word {
        assert OccursAt(s, word, i);
        return true;
      }
    }
    return false;
  }

  method SensitiveKey(key: string, extra: seq<string>) returns (r: bool)
    ensures r == Sensitive(key, extra)
  {
    var normalized := Normalize(key);
    for i := 0 to |WORDS|
      invariant forall j :: 0 <= j < i ==> !Contains(normalized, WORDS[j])
    {
      var found := ContainsWord(normalized, WORDS[i]);
      if found { return true; }
    }
    for i := 0 to |extra|
      invariant forall j :: 0 <= j < i ==> extra[j] == "" || !Contains(normalized, extra[j])
    {
      if extra[i] != "" {
        var found := ContainsWord(normalized, extra[i]);
        if found { return true; }
      }
    }
    return false;
  }

  // ----- URLs: head, query, fragment (RFC 3986, sections 3.4 and 3.5) -----

  /** What net/url contributes: which texts it accepts, and percent-decoding of query parts. */
  datatype Net = Net(parses: string -> bool, unescape: string -> Option<string>)

  function IndexOf(s: string, c: char): (r: nat)
    ensures r <= |s| && c !in s[..r] && (r < |s| ==> s[r] == c)
  {
    if s == "" || s[0] == c then 0
    else
      var r := 1 + IndexOf(s[1..], c);
      assert s[..r] == [s[0]] + s[1..][..r - 1];
      r
  }

  function Before(s: string, c: char): string { s[..IndexOf(s, c)] }

  function After(s: string, c: char): string {
    if IndexOf(s, c) < |s| then s[IndexOf(s, c) + 1..] else ""
  }

  function Head(url: string): string { Before(Before(url, '#'), '?') }

  function Query(url: string): string { After(Before(url, '#'), '?') }

  function Fragment(url: string): string { After(url, '#') }

  /** One `key=value` of a query; parts with a semicolon or a broken escape are dropped by net/url. */
  predicate PartNames(net: Net, part: string) {
    && part != "" && ';' !in part
    && net.unescape(Before(part, '=')).Some? && net.unescape(After(part, '=')).Some?
    && Sensitive(net.unescape(Before(part, '=')).value, [])
  }

  predicate NamesCredential(net: Net, query: string) {
    exists i :: 0 <= i < |Split(query, '&')| && PartNames(net, Split(query, '&')[i])
  }

  /** No query, or none that names a credential. */
  predicate UrlClean(net: Net, url: string) {
    net.parses(url) ==> Query(url) == "" || !NamesCredential(net, Query(url))
  }

  function Stripped(url: string): string {
    Head(url) + (if Fragment(url) == "" then "" else "#" + Fragment(url))
  }

  function ScrubbedUrl(net: Net, url: string): string {
    if UrlClean(net, url) then url else Stripped(url)
  }

  method ScrubUrl(net: Net, value: string) returns (r: string)
    ensures r == ScrubbedUrl(net, value)
  {
    if '?' !in value {
      NoQuestionNoQuery(value);
      return value;
    }
    if !net.parses(value) || Query(value) == "" { return value; }
    var parts := Split(Query(value), '&');
    for i := 0 to |parts|
      invariant forall j :: 0 <= j < i ==> !PartNames(net, parts[j])
    {
      if parts[i] == "" || ';' in parts[i] { continue; }
      var key, text := net.unescape(Before(parts[i], '=')), net.unescape(After(parts[i], '='));
      if key.None? || text.None? { continue; }
      var sensitive := SensitiveKey(key.value, []);
      if sensitive { return Stripped(value); }
    }
    return value;
  }

  lemma NoQuestionNoQuery(url: string)
    requires '?' !in url
    ensures Query(url) == ""
  {
  }

  lemma {:induction false} IndexAfter(head: string, c: char, rest: string)
    requires c !in head
    ensures IndexOf(head + [c] + rest, c) == |head|
  {
    if head != "" {
      IndexAfter(head[1..], c, rest);
      assert (head + [c] + rest)[1..] == head[1..] + [c] + rest;
    }
  }

  lemma StrippedHasNoQuery(url: string)
    ensures Query(Stripped(url)) == ""
  {
    var h, f := Head(url), Fragment(url);
    assert '#' !in h && '?' !in h;
    if f == "" {
      assert Stripped(url) == h;
    } else {
      IndexAfter(h, '#', f);
      assert Stripped(url) == h + ['#'] + f;
    }
    assert Before(Stripped(url), '#') == h;
  }

  lemma StrippedIsShorter(url: string)
    requires Query(url) != ""
    ensures Stripped(url) != url
  {
    assert |Stripped(url)| < |url|;
  }

  /** The result names no credential in its query, and only a URL that named one is changed. */
  lemma ScrubbedUrlClean(net: Net, url: string)
    ensures UrlClean(net, ScrubbedUrl(net, url))
    ensures ScrubbedUrl(net, url) == url <==> UrlClean(net, url)
  {
    StrippedHasNoQuery(url);
    if !UrlClean(net, url) { StrippedIsShorter(url); }
  }

  // ----- scrub -----

  function Scrubbed(net: Net, value: Json, extra: seq<string>): Json {
    match value
    case Obj(fields) =>
      Obj(map k | k in fields :: if Sensitive(k, extra) then Str(MARKER) else Scrubbed(net, fields[k], extra))
    case Arr(items) =>
      Arr(seq(|items|, i requires 0 <= i < |items| => Scrubbed(net, items[i], extra)))
    case Str(text) => Str(ScrubbedUrl(net, text))
    case _ => value
  }

  /** At every depth: sensitive names carry the marker, texts carry no query naming a credential. */
  predicate Clean(net: Net, value: Json, extra: seq<string>) {
    match value
    case Obj(fields) =>
      forall k :: k in fields ==>
        if Sensitive(k, extra) then fields[k] == Str(MARKER) else Clean(net, fields[k], extra)
    case Arr(items) => forall i :: 0 <= i < |items| ==> Clean(net, items[i], extra)
    case Str(text) => UrlClean(net, text)
    case _ => true
  }

  lemma {:induction false} ScrubbedClean(net: Net, value: Json, extra: seq<string>)
    ensures Clean(net, Scrubbed(net, value, extra), extra)
  {
    match value
    case Obj(fields) =>
      forall k | k in fields && !Sensitive(k, extra) ensures Clean(net, Scrubbed(net, fields[k], extra), extra) {
        ScrubbedClean(net, fields[k], extra);
      }
    case Arr(items) =>
      forall i | 0 <= i < |items| ensures Clean(net, Scrubbed(net, items[i], extra), extra) {
        ScrubbedClean(net, items[i], extra);
      }
    case Str(text) => ScrubbedUrlClean(net, text);
    case _ =>
  }

  /** scrub changes a value exactly when there is something to redact in it. */
  lemma {:induction false} ScrubbedOnlyDirt(net: Net, value: Json, extra: seq<string>)
    ensures Scrubbed(net, value, extra) == value <==> Clean(net, value, extra)
  {
    match value
    case Obj(fields) =>
      forall k | k in fields && !Sensitive(k, extra)
        ensures Scrubbed(net, fields[k], extra) == fields[k] <==> Clean(net, fields[k], extra)
      {
        ScrubbedOnlyDirt(net, fields[k], extra);
      }
      var s := Scrubbed(net, value, extra);
      assert forall k :: k in fields ==>
        (s.fields[k] == if Sensitive(k, extra) then Str(MARKER) else Scrubbed(net, fields[k], extra));
      assert s.fields == fields <==> forall k :: k in fields ==> s.fields[k] == fields[k];
    case Arr(items) =>
      forall i | 0 <= i < |items|
        ensures Scrubbed(net, items[i], extra) == items[i] <==> Clean(net, items[i], extra)
      {
        ScrubbedOnlyDirt(net, items[i], extra);
      }
      var s := Scrubbed(net, value, extra);
      assert s.items == items <==> forall i :: 0 <= i < |items| ==> s.items[i] == items[i];
    case Str(text) => ScrubbedUrlClean(net, text);
    case _ =>
  }

  method Scrub(net: Net, value: Json, extra: seq<string>) returns (r: Json)
    ensures r == Scrubbed(net, value, extra)
    decreases value, 1
  {
    match value
    case Obj(fields) =>
      var cleaned := ScrubFields(net, value, extra);
      return Obj(cleaned);
    case Arr(items) =>
      var cleaned: seq<Json> := [];
      for i := 0 to |items|
        invariant |cleaned| == i
        invariant forall j :: 0 <= j < i ==> cleaned[j] == Scrubbed(net, items[j], extra)
      {
        var item := Scrub(net, items[i], extra);
        cleaned := cleaned + [item];
      }
      return Arr(cleaned);
    case Str(text) =>
      var url := ScrubUrl(net, text);
      return Str(url);
    case _ => return value;
  }

  /** The fields done so far are the fields the result will have. */
  ghost predicate ScrubbedSoFar(net: Net, fields: map<string, Json>, extra: seq<string>, cleaned: map<string, Json>) {
    forall k :: k in cleaned ==>
      k in fields && cleaned[k] == if Sensitive(k, extra) then Str(MARKER) else Scrubbed(net, fields[k], extra)
  }

  lemma AllFieldsScrubbed(net: Net, fields: map<string, Json>, extra: seq<string>, cleaned: map<string, Json>)
    requires ScrubbedSoFar(net, fields, extra, cleaned) && cleaned.Keys == fields.Keys
    ensures Obj(cleaned) == Scrubbed(net, Obj(fields), extra)
  {
    var whole := Scrubbed(net, Obj(fields), extra).fields;
    assert whole.Keys == fields.Keys;
    assert forall k :: k in fields ==> cleaned[k] == whole[k];
    assert cleaned == whole;
  }

  method ScrubFields(net: Net, value: Json, extra: seq<string>) returns (cleaned: map<string, Json>)
    requires value.Obj?
    ensures Obj(cleaned) == Scrubbed(net, value, extra)
    decreases value, 0
  {
    var fields := value.fields;
    cleaned := map[];
    var rest := fields.Keys;
    while rest != {}
      invariant rest <= fields.Keys && cleaned.Keys == fields.Keys - rest
      invariant ScrubbedSoFar(net, fields, extra, cleaned)
      decreases |rest|
    {
      var key :| key in rest;
      rest := rest - {key};
      var sensitive := SensitiveKey(key, extra);
      if sensitive {
        cleaned := cleaned[key := Str(MARKER)];
      } else {
        var nested := Scrub(net, fields[key], extra);
        cleaned := cleaned[key := nested];
      }
    }
    AllFieldsScrubbed(net, fields, extra, cleaned);
  }

  // ----- pickAllowed, filterTop, Redact -----

  function Picked(net: Net, fields: map<string, Json>, allowed: set<string>, extra: seq<string>): map<string, Json> {
    map k | k in fields && k in allowed ::
      if Sensitive(k, extra) then Str(MARKER) else Scrubbed(net, fields[k], extra)
  }

  method PickAllowed(net: Net, fields: map<string, Json>, allowed: set<string>, extra: seq<string>)
    returns (kept: map<string, Json>)
    ensures kept == Picked(net, fields, allowed, extra)
  {
    kept := map[];
    var rest := fields.Keys;
    while rest != {}
      invariant rest <= fields.Keys && kept.Keys == (fields.Keys - rest) * allowed
      invariant forall k :: k in kept ==>
        kept[k] == if Sensitive(k, extra) then Str(MARKER) else Scrubbed(net, fields[k], extra)
      decreases |rest|
    {
      var key :| key in rest;
      rest := rest - {key};
      if key !in allowed { continue; }
      var sensitive := SensitiveKey(key, extra);
      if sensitive {
        kept := kept[key := Str(MARKER)];
        continue;
      }
      var scrubbed := Scrub(net, fields[key], extra);
      kept := kept[key := scrubbed];
    }
  }

  /** An object, or an array of objects, and nothing else. */
  predicate Filterable(value: Json) {
    value.Obj? || (value.Arr? && forall i :: 0 <= i < |value.items| ==> value.items[i].Obj?)
  }

  function Filtered(net: Net, value: Json, allowed: set<string>, extra: seq<string>): Json
    requires Filterable(value)
  {
    if value.Obj? then Obj(Picked(net, value.fields, allowed, extra))
    else Arr(seq(|value.items|, i requires 0 <= i < |value.items| =>
               Obj(Picked(net, value.items[i].fields, allowed, extra))))
  }

  function NormalizeAll(rules: seq<string>): seq<string> {
    seq(|rules|, i requires 0 <= i < |rules| => Normalize(rules[i]))
  }

  function Redacted(net: Net, body: Json, allowed: set<string>, rules: seq<string>): Result<Json> {
    if Filterable(body) then Ok(Filtered(net, body, allowed, NormalizeAll(rules))) else Err(Internal)
  }

  method Redact(net: Net, body: Json, allowed: set<string>, rules: seq<string>) returns (r: Result<Json>)
    ensures r == Redacted(net, body, allowed, rules)
  {
    var extra := NormalizeAll(rules);
    match body
    case Obj(fields) =>
      var kept := PickAllowed(net, fields, allowed, extra);
      return Ok(Obj(kept));
    case Arr(items) =>
      var kept: seq<Json> := [];
      for i := 0 to |items|
        invariant |kept| == i
        invariant forall j :: 0 <= j < i ==>
          items[j].Obj? && kept[j] == Obj(Picked(net, items[j].fields, allowed, extra))
      {
        if !items[i].Obj? { return Err(Internal); }
        var picked := PickAllowed(net, items[i].fields, allowed, extra);
        kept := kept + [Obj(picked)];
      }
      assert kept == Filtered(net, body, allowed, extra).items;
      return Ok(Arr(kept));
    case _ => return Err(Internal);
  }

  /** Only whitelisted names at the top, of the object or of each object of the array. */
  predicate Whitelisted(value: Json, allowed: set<string>) {
    && Filterable(value)
    && (value.Obj? ==> value.fields.Keys <= allowed)
    && (value.Arr? ==> forall i :: 0 <= i < |value.items| ==> value.items[i].fields.Keys <= allowed)
  }

  lemma PickedClean(net: Net, fields: map<string, Json>, allowed: set<string>, extra: seq<string>)
    ensures Clean(net, Obj(Picked(net, fields, allowed, extra)), extra)
    ensures Picked(net, fields, allowed, extra).Keys == fields.Keys * allowed
  {
    forall k | k in fields && !Sensitive(k, extra) ensures Clean(net, Scrubbed(net, fields[k], extra), extra) {
      ScrubbedClean(net, fields[k], extra);
    }
  }

  /** Whatever Redact returns is whitelisted and clean at every depth. */
  lemma RedactedIsSafe(net: Net, body: Json, allowed: set<string>, rules: seq<string>)
    requires Redacted(net, body, allowed, rules).Ok?
    ensures var r := Redacted(net, body, allowed, rules).value;
      Whitelisted(r, allowed) && Clean(net, r, NormalizeAll(rules))
  {
    var extra := NormalizeAll(rules);
    match body
    case Obj(fields) => PickedClean(net, fields, allowed, extra);
    case Arr(items) =>
      forall i | 0 <= i < |items|
        ensures Clean(net, Obj(Picked(net, items[i].fields, allowed, extra)), extra)
        ensures Picked(net, items[i].fields, allowed, extra).Keys <= allowed
      {
        PickedClean(net, items[i].fields, allowed, extra);
      }
    case _ =>
  }

  lemma PickedFixed(net: Net, fields: map<string, Json>, allowed: set<string>, extra: seq<string>)
    requires fields.Keys <= allowed && Clean(net, Obj(fields), extra)
    ensures Picked(net, fields, allowed, extra) == fields
  {
    ScrubbedOnlyDirt(net, Obj(fields), extra);
    assert Scrubbed(net, Obj(fields), extra).fields == fields;
    assert Picked(net, fields, allowed, extra).Keys == fields.Keys;
    forall k | k in fields ensures Picked(net, fields, allowed, extra)[k] == fields[k] {
      assert Scrubbed(net, Obj(fields), extra).fields[k] == fields[k];
    }
  }

  /** A response that is already whitelisted and clean passes unchanged; so redacting twice is
      redacting once, which the executor relies on when it does not redact again. */
  lemma RedactFixesClean(net: Net, body: Json, allowed: set<string>, rules: seq<string>)
    requires Whitelisted(body, allowed) && Clean(net, body, NormalizeAll(rules))
    ensures Redacted(net, body, allowed, rules) == Ok(body)
  {
    var extra := NormalizeAll(rules);
    match body
    case Obj(fields) => PickedFixed(net, fields, allowed, extra);
    case Arr(items) =>
      forall i | 0 <= i < |items| ensures Obj(Picked(net, items[i].fields, allowed, extra)) == items[i] {
        assert Clean(net, items[i], extra);
        PickedFixed(net, items[i].fields, allowed, extra);
      }
      assert Filtered(net, body, allowed, extra).items == items;
    case _ =>
  }

  lemma RedactTwice(net: Net, body: Json, allowed: set<string>, rules: seq<string>)
    requires Redacted(net, body, allowed, rules).Ok?
    ensures var once := Redacted(net, body, allowed, rules);
      Redacted(net, once.value, allowed, rules) == once
  {
    RedactedIsSafe(net, body, allowed, rules);
    RedactFixesClean(net, Redacted(net, body, allowed, rules).value, allowed, rules);
  }
}
