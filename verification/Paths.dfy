/**
 Path templates: MatchPath (internal/adapter/registry/resolve.go) reads a path against a template,
 buildPath (internal/adapter/github/adapter.go) writes one from it. They undo each other.
 */
module Paths {
  import opened Results
  import opened Text

  type Values = map<string, string>

  function Segments(path: string): (parts: seq<string>)
    ensures |parts| >= 1 && forall i :: 0 <= i < |parts| ==> '/' !in parts[i]
  {
    Split(TrimPrefix(path, "/"), '/')
  }

  predicate Placeholder(segment: string) {
    HasPrefix(segment, "{") && HasSuffix(segment, "}")
  }

  function Key(segment: string): string {
    TrimSuffix(TrimPrefix(segment, "{"), "}")
  }

  /** unicode.IsSpace, for strings.TrimSpace. */
  predicate Space(c: char) {
    || '\t' <= c <= '\r' || c == ' ' || c == '\U{0085}' || c == '\U{00A0}' || c == '\U{1680}'
    || '\U{2000}' <= c <= '\U{200A}' || c == '\U{2028}' || c == '\U{2029}' || c == '\U{202F}'
    || c == '\U{205F}' || c == '\U{3000}'
  }

  predicate Blank(s: string) {
    forall i :: 0 <= i < |s| ==> Space(s[i])
  }

  // ----- MatchPath -----

  predicate SegmentMatches(expected: string, got: string) {
    got != "" && (Placeholder(expected) || expected == got)
  }

  predicate Matches(template: string, actual: string) {
    var t, a := Segments(template), Segments(actual);
    && HasPrefix(actual, "/") && !Contains(actual, "..")
    && |t| == |a| && forall i :: 0 <= i < |t| ==> SegmentMatches(t[i], a[i])
  }

  /** The values of the placeholders; a repeated one keeps its last value. */
  function Captured(t: seq<string>, a: seq<string>): Values
    requires |t| == |a|
  {
    if t == [] then map[]
    else
      var n := |t| - 1;
      var front := Captured(t[..n], a[..n]);
      if Placeholder(t[n]) then front[Key(t[n]) := a[n]] else front
  }

  lemma CapturedNext(t: seq<string>, a: seq<string>, i: nat)
    requires |t| == |a| && i < |t|
    ensures var before := Captured(t[..i], a[..i]);
      Captured(t[..i + 1], a[..i + 1]) == if Placeholder(t[i]) then before[Key(t[i]) := a[i]] else before
  {
    assert t[..i + 1][..i] == t[..i] && a[..i + 1][..i] == a[..i];
  }

  method HasDots(s: string) returns (r: bool)
    ensures r == Contains(s, "..")
  {
    for i := 0 to |s|
      invariant forall k: nat :: k < i ==> !OccursAt(s, "..", k)
    {
      if i + 2 <= |s| && s[i..i + 2] == ".." {
        assert OccursAt(s, "..", i);
        return true;
      }
    }
    return false;
  }

  method MatchPath(template: string, actual: string) returns (r: Option<Values>)
    ensures r == if Matches(template, actual) then Some(Captured(Segments(template), Segments(actual))) else None
  {
    var dotted := HasDots(actual);
    if !HasPrefix(actual, "/") || dotted { return None; }
    var t, a := Segments(template), Segments(actual);
    if |t| != |a| { return None; }
    r := MatchSegments(t, a);
  }

  /** The loop of MatchPath. */
  method MatchSegments(t: seq<string>, a: seq<string>) returns (r: Option<Values>)
    requires |t| == |a|
    ensures r == if forall i :: 0 <= i < |t| ==> SegmentMatches(t[i], a[i]) then Some(Captured(t, a)) else None
  {
    var captured: Values := map[];
    for i := 0 to |t|
      invariant forall j :: 0 <= j < i ==> SegmentMatches(t[j], a[j])
      invariant captured == Captured(t[..i], a[..i])
    {
      if !SegmentMatches(t[i], a[i]) { return None; }
      CapturedNext(t, a, i);
      if Placeholder(t[i]) { captured := captured[Key(t[i]) := a[i]]; }
    }
    assert t[..|t|] == t && a[..|a|] == a;
    return Some(captured);
  }

  // ----- buildPath -----

  /** The value may stand in a path: present, not blank, and unable to change the endpoint. */
  predicate Usable(value: string) {
    !Blank(value) && !ContainsAny(value, "/?#") && !Contains(value, "..")
  }

  predicate Fillable(segment: string, resource: Values) {
    Placeholder(segment) ==> Key(segment) in resource && Usable(resource[Key(segment)])
  }

  predicate Buildable(t: seq<string>, resource: Values) {
    forall i :: 0 <= i < |t| ==> Fillable(t[i], resource)
  }

  function Fill(segment: string, resource: Values): string {
    if Placeholder(segment) && Key(segment) in resource then resource[Key(segment)] else segment
  }

  function Filled(t: seq<string>, resource: Values): (r: seq<string>)
    ensures |r| == |t|
  {
    seq(|t|, i requires 0 <= i < |t| => Fill(t[i], resource))
  }

  function Built(template: string, resource: Values): Result<string> {
    if Buildable(Segments(template), resource) then Ok("/" + Join(Filled(Segments(template), resource), '/'))
    else Err(InvalidRequest)
  }

  method IsBlank(s: string) returns (r: bool)
    ensures r == Blank(s)
  {
    for i := 0 to |s|
      invariant forall j :: 0 <= j < i ==> Space(s[j])
    {
      if !Space(s[i]) { return false; }
    }
    return true;
  }

  method IsUsable(value: string) returns (r: bool)
    ensures r == Usable(value)
  {
    var blank := IsBlank(value);
    if blank || ContainsAny(value, "/?#") { return false; }
    var dotted := HasDots(value);
    return !dotted;
  }

  method FillSegment(segment: string, resource: Values) returns (r: Result<string>)
    ensures r == if Fillable(segment, resource) then Ok(Fill(segment, resource)) else Err(InvalidRequest)
  {
    if !Placeholder(segment) { return Ok(segment); }
    var key := Key(segment);
    if key !in resource { return Err(InvalidRequest); }
    var usable := IsUsable(resource[key]);
    if !usable { return Err(InvalidRequest); }
    return Ok(resource[key]);
  }

  method BuildPath(template: string, resource: Values) returns (r: Result<string>)
    ensures r == Built(template, resource)
  {
    var t := Segments(template);
    var filled: seq<string> := [];
    for i := 0 to |t|
      invariant |filled| == i
      invariant forall j :: 0 <= j < i ==> Fillable(t[j], resource) && filled[j] == Fill(t[j], resource)
    {
      var segment := FillSegment(t[i], resource);
      if segment.Err? { return Err(segment.code); }
      filled := filled + [segment.value];
    }
    assert filled == Filled(t, resource);
    return Ok("/" + Join(filled, '/'));
  }

  // ----- Texts and segments -----

  /** Two dots in a joined path are two dots in one of its segments. */
  lemma {:induction false} DotsOfJoin(parts: seq<string>)
    requires Contains(Join(parts, '/'), "..")
    ensures exists i :: 0 <= i < |parts| && Contains(parts[i], "..")
  {
    var s := Join(parts, '/');
    var k: nat :| k <= |s| && OccursAt(s, "..", k);
    if |parts| == 1 {
      assert Contains(parts[0], "..");
    } else if |parts| > 1 {
      var head, tail := parts[0], Join(parts[1..], '/');
      assert s == head + ['/'] + tail;
      assert s[k] == '.' && s[k + 1] == '.' by { assert s[k..k + 2][0] == '.' && s[k..k + 2][1] == '.'; }
      assert s[|head|] == '/';
      if k + 1 < |head| {
        assert head[k..k + 2] == s[k..k + 2];
        assert OccursAt(head, "..", k);
        assert Contains(parts[0], "..");
      } else {
        var j := k - |head| - 1;
        assert tail[j..j + 2] == s[k..k + 2];
        assert OccursAt(tail, "..", j);
        DotsOfJoin(parts[1..]);
        var i :| 0 <= i < |parts[1..]| && Contains(parts[1..][i], "..");
        assert parts[1..][i] == parts[i + 1];
      }
    }
  }

  lemma {:induction false} DotsOfPart(parts: seq<string>, i: nat)
    requires i < |parts| && Contains(parts[i], "..")
    ensures Contains(Join(parts, '/'), "..")
  {
    var s := Join(parts, '/');
    if |parts| > 1 {
      var head, tail := parts[0], Join(parts[1..], '/');
      assert s == head + ['/'] + tail;
      if i == 0 {
        var k: nat :| k <= |head| && OccursAt(head, "..", k);
        assert s[k..k + 2] == head[k..k + 2];
        assert OccursAt(s, "..", k);
      } else {
        assert parts[1..][i - 1] == parts[i];
        DotsOfPart(parts[1..], i - 1);
        var k: nat :| k <= |tail| && OccursAt(tail, "..", k);
        assert s[k + |head| + 1..k + |head| + 3] == tail[k..k + 2];
        assert OccursAt(s, "..", k + |head| + 1);
      }
    }
  }

  lemma SlashPrefix(s: string)
    ensures TrimPrefix("/" + s, "/") == s && HasPrefix("/" + s, "/")
  {
    assert ("/" + s)[..1] == "/" && ("/" + s)[1..] == s;
  }

  lemma SlashDots(s: string)
    ensures Contains("/" + s, "..") <==> Contains(s, "..")
  {
    if Contains("/" + s, "..") {
      var k: nat :| k <= |s| + 1 && OccursAt("/" + s, "..", k);
      assert ("/" + s)[k..k + 2][0] == '.';
      assert s[k - 1..k + 1] == ("/" + s)[k..k + 2];
      assert OccursAt(s, "..", k - 1);
    }
    if Contains(s, "..") {
      var k: nat :| k <= |s| && OccursAt(s, "..", k);
      assert ("/" + s)[k + 1..k + 3] == s[k..k + 2];
      assert OccursAt("/" + s, "..", k + 1);
    }
  }

  lemma NoSlash(value: string)
    requires !ContainsAny(value, "/?#")
    ensures '/' !in value
  {
    assert "/?#"[0] == '/';
    assert '/' in "/?#";
  }

  // ----- Printing, then parsing -----

  /** Literal segments that MatchPath can accept at all. */
  predicate WellFormed(t: seq<string>) {
    forall i :: 0 <= i < |t| && !Placeholder(t[i]) ==> t[i] != "" && !Contains(t[i], "..")
  }

  predicate AllPlaced(t: seq<string>, a: seq<string>, resource: Values)
    requires |t| == |a|
  {
    forall i :: 0 <= i < |t| && Placeholder(t[i]) ==> Key(t[i]) in resource && a[i] == resource[Key(t[i])]
  }

  function Keys(t: seq<string>): set<string> {
    set i | 0 <= i < |t| && Placeholder(t[i]) :: Key(t[i])
  }

  function Restricted(resource: Values, keys: set<string>): Values {
    map k | k in keys && k in resource :: resource[k]
  }

  /** If every placeholder got its value from one resource, capturing gives that resource back. */
  lemma {:induction false} CapturedFromResource(t: seq<string>, a: seq<string>, resource: Values)
    requires |t| == |a| && AllPlaced(t, a, resource)
    ensures Captured(t, a) == Restricted(resource, Keys(t))
  {
    if t != [] {
      var n := |t| - 1;
      assert t[..n] + [t[n]] == t;
      assert forall i :: 0 <= i < n ==> t[..n][i] == t[i] && a[..n][i] == a[i];
      CapturedFromResource(t[..n], a[..n], resource);
      KeysOfLast(t);
    }
  }

  lemma KeysOfLast(t: seq<string>)
    requires t != []
    ensures var n := |t| - 1; Keys(t) == Keys(t[..n]) + (if Placeholder(t[n]) then {Key(t[n])} else {})
  {
    var n := |t| - 1;
    forall k | k in Keys(t[..n]) ensures k in Keys(t) {
      var i :| 0 <= i < n && Placeholder(t[..n][i]) && Key(t[..n][i]) == k;
      assert Placeholder(t[i]) && Key(t[i]) == k;
    }
    forall k | k in Keys(t) ensures k in Keys(t[..n]) || (Placeholder(t[n]) && k == Key(t[n])) {
      var i :| 0 <= i < |t| && Placeholder(t[i]) && Key(t[i]) == k;
      if i < n { assert Placeholder(t[..n][i]); }
    }
  }

  lemma FilledSegments(t: seq<string>, resource: Values)
    requires t != [] && WellFormed(t) && Buildable(t, resource)
    requires forall i :: 0 <= i < |t| ==> '/' !in t[i]
    ensures var path := "/" + Join(Filled(t, resource), '/');
      && Segments(path) == Filled(t, resource) && !Contains(path, "..")
  {
    var f := Filled(t, resource);
    forall i | 0 <= i < |f| ensures '/' !in f[i] && !Contains(f[i], "..") {
      if Placeholder(t[i]) { NoSlash(f[i]); }
    }
    SlashPrefix(Join(f, '/'));
    SplitJoin(f, '/');
    SlashDots(Join(f, '/'));
    if Contains(Join(f, '/'), "..") { DotsOfJoin(f); }
  }

  /** Whatever buildPath builds, MatchPath reads, and it reads exactly the values that were put in. */
  lemma BuildThenMatch(template: string, resource: Values)
    requires WellFormed(Segments(template)) && Built(template, resource).Ok?
    ensures var path := Built(template, resource).value;
      && Matches(template, path)
      && Captured(Segments(template), Segments(path)) == Restricted(resource, Keys(Segments(template)))
  {
    var t := Segments(template);
    var f := Filled(t, resource);
    FilledSegments(t, resource);
    SlashPrefix(Join(f, '/'));
    forall i | 0 <= i < |t| ensures SegmentMatches(t[i], f[i]) {
      if Placeholder(t[i]) { assert f[i] == resource[Key(t[i])] && !Blank(f[i]); }
    }
    CapturedFromResource(t, f, resource);
  }

  // ----- Parsing, then printing -----

  lemma {:induction false} CapturedKeys(t: seq<string>, a: seq<string>)
    requires |t| == |a|
    ensures forall i :: 0 <= i < |t| && Placeholder(t[i]) ==> Key(t[i]) in Captured(t, a)
  {
    if t != [] {
      var n := |t| - 1;
      CapturedKeys(t[..n], a[..n]);
      forall i | 0 <= i < |t| && Placeholder(t[i]) ensures Key(t[i]) in Captured(t, a) {
        if i < n { assert t[..n][i] == t[i]; }
      }
    }
  }

  lemma {:induction false} CapturedValues(t: seq<string>, a: seq<string>, key: string)
    requires |t| == |a| && key in Captured(t, a)
    ensures exists i :: 0 <= i < |t| && Placeholder(t[i]) && Key(t[i]) == key && a[i] == Captured(t, a)[key]
  {
    var n := |t| - 1;
    if !(Placeholder(t[n]) && Key(t[n]) == key) {
      CapturedValues(t[..n], a[..n], key);
      var i :| 0 <= i < n && Placeholder(t[..n][i]) && Key(t[..n][i]) == key
               && a[..n][i] == Captured(t[..n], a[..n])[key];
      assert t[i] == t[..n][i] && a[i] == a[..n][i];
    }
  }

  /** The segment can be printed back: not blank, no `?` or `#`, and what its placeholder captured. */
  predicate Reprintable(t: seq<string>, a: seq<string>, i: nat)
    requires |t| == |a| && i < |t|
  {
    Placeholder(t[i]) ==>
      && !Blank(a[i]) && '?' !in a[i] && '#' !in a[i]
      && Key(t[i]) in Captured(t, a) && Captured(t, a)[Key(t[i])] == a[i]
  }

  lemma UsableSegment(actual: string, i: nat)
    requires i < |Segments(actual)| && HasPrefix(actual, "/") && !Contains(actual, "..")
    ensures var s := Segments(actual)[i];
      Usable(s) <==> !Blank(s) && '?' !in s && '#' !in s
  {
    var a := Segments(actual);
    var s := a[i];
    var rest := actual[1..];
    assert actual == "/" + rest;
    SlashDots(rest);
    JoinSplit(rest, '/');
    if Contains(s, "..") { DotsOfPart(a, i); }
    assert ContainsAny(s, "/?#") <==> '?' in s || '#' in s by {
      assert "/?#"[0] == '/' && "/?#"[1] == '?' && "/?#"[2] == '#';
      if ContainsAny(s, "/?#") {
        var k :| 0 <= k < |s| && s[k] in "/?#";
        assert s[k] != '/';
      }
    }
  }

  /** Rebuilding a path from what was captured gives the path back exactly when no captured segment
      is blank or carries `?` or `#` and every repeated placeholder captured the same text. */
  lemma MatchThenBuild(template: string, actual: string)
    requires Matches(template, actual)
    ensures var t, a := Segments(template), Segments(actual);
      Built(template, Captured(t, a)) == Ok(actual) <==> forall i :: 0 <= i < |t| ==> Reprintable(t, a, i)
  {
    var t, a := Segments(template), Segments(actual);
    var c := Captured(t, a);
    CapturedKeys(t, a);
    JoinSplit(actual[1..], '/');
    assert actual == "/" + actual[1..];
    if forall i :: 0 <= i < |t| ==> Reprintable(t, a, i) {
      forall i | 0 <= i < |t| && Placeholder(t[i]) ensures Key(t[i]) in c && Usable(c[Key(t[i])]) {
        assert Reprintable(t, a, i);
        UsableSegment(actual, i);
      }
      forall i | 0 <= i < |t| ensures Filled(t, c)[i] == a[i] {
        assert Reprintable(t, a, i) && SegmentMatches(t[i], a[i]);
      }
      assert Filled(t, c) == a;
    }
    if Built(template, c) == Ok(actual) {
      var f := Filled(t, c);
      SameJoin(t, c, actual);
      forall i | 0 <= i < |t| ensures Reprintable(t, a, i) {
        if Placeholder(t[i]) {
          assert f[i] == c[Key(t[i])] && f[i] == a[i];
          UsableSegment(actual, i);
        }
      }
    }
  }

  /** A built path has the filled segments as its segments. */
  lemma SameJoin(t: seq<string>, c: Values, actual: string)
    requires Buildable(t, c) && t != [] && (forall i :: 0 <= i < |t| ==> '/' !in t[i])
    requires actual == "/" + Join(Filled(t, c), '/')
    ensures Segments(actual) == Filled(t, c)
  {
    var f := Filled(t, c);
    forall i | 0 <= i < |f| ensures '/' !in f[i] {
      if Placeholder(t[i]) { NoSlash(f[i]); }
    }
    SlashPrefix(Join(f, '/'));
    SplitJoin(f, '/');
  }

  // ----- Templates that share no path -----

  predicate DifferAt(t: seq<string>, u: seq<string>, i: nat) {
    i < |t| && i < |u| && !Placeholder(t[i]) && !Placeholder(u[i]) && t[i] != u[i]
  }

  /** Of different length, or different in a position where both are literal. */
  ghost predicate Apart(t: seq<string>, u: seq<string>) {
    |t| != |u| || exists i: nat :: DifferAt(t, u, i)
  }

  lemma ApartShareNoPath(template: string, other: string, actual: string)
    requires Apart(Segments(template), Segments(other))
    ensures !(Matches(template, actual) && Matches(other, actual))
  {
    var t, u, a := Segments(template), Segments(other), Segments(actual);
    if |t| == |u| == |a| {
      forall i: nat | DifferAt(t, u, i) ensures !(SegmentMatches(t[i], a[i]) && SegmentMatches(u[i], a[i])) {
      }
    }
  }
}
