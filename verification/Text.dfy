/** String helpers standing for Go's `strings`, `sort` and comparison of strings. */
module Text {

  /** Go's `<` on strings: byte order, which for UTF-8 is code point order. */
  predicate LexLess(a: string, b: string) {
    if b == "" then false
    else if a == "" then true
    else if a[0] != b[0] then a[0] < b[0]
    else LexLess(a[1..], b[1..])
  }

  lemma {:induction false} LexIrreflexive(a: string)
    ensures !LexLess(a, a)
  {
    if a != "" { LexIrreflexive(a[1..]); }
  }

  lemma {:induction false} LexTotal(a: string, b: string)
    ensures LexLess(a, b) || a == b || LexLess(b, a)
  {
    if a != "" && b != "" && a[0] == b[0] {
      LexTotal(a[1..], b[1..]);
      if a[1..] == b[1..] { assert a == [a[0]] + a[1..] == b; }
    }
  }

  lemma {:induction false} LexTransitive(a: string, b: string, c: string)
    requires LexLess(a, b) && LexLess(b, c)
    ensures LexLess(a, c)
  {
    if a != "" && a[0] == b[0] && b[0] == c[0] {
      LexTransitive(a[1..], b[1..], c[1..]);
    }
  }

  /** A common prefix does not decide the order. */
  lemma {:induction false} LexCommonPrefix(p: string, a: string, b: string)
    ensures LexLess(p + a, p + b) <==> LexLess(a, b)
  {
    if p == "" {
      assert p + a == a && p + b == b;
    } else {
      LexCommonPrefix(p[1..], a, b);
      assert (p + a)[1..] == p[1..] + a && (p + b)[1..] == p[1..] + b;
    }
  }

  /** Texts of one length that differ already in equally long heads are ordered by the heads. */
  lemma {:induction false} LexHeadDecides(p: string, q: string, a: string, b: string)
    requires |p| == |q| && p != q
    ensures LexLess(p + a, q + b) <==> LexLess(p, q)
  {
    if p[0] == q[0] {
      assert p[1..] != q[1..] by {
        assert p == [p[0]] + p[1..] && q == [q[0]] + q[1..];
      }
      LexHeadDecides(p[1..], q[1..], a, b);
    }
    assert (p + a)[1..] == p[1..] + a && (q + b)[1..] == q[1..] + b;
  }

  // ----- Case -----

  /** unicode.ToLower restricted to the runes whose lower case is an ASCII letter; every other
      rune stays outside ASCII, which is all the ASCII word tables can observe. */
  function Lower(c: char): char {
    if 'A' <= c <= 'Z' then (c as int + 32) as char
    else if c == '\U{212A}' then 'k'
    else if c == '\U{0130}' then 'i'
    else c
  }

  function LowerText(s: string): (r: string)
    ensures |r| == |s|
    ensures forall i :: 0 <= i < |s| ==> r[i] == Lower(s[i])
  {
    seq(|s|, i requires 0 <= i < |s| => Lower(s[i]))
  }

  /** Simple case folding, again exact on everything that folds to an ASCII letter. */
  function Fold(c: char): char {
    if 'A' <= c <= 'Z' then (c as int + 32) as char
    else if c == '\U{212A}' then 'k'
    else if c == '\U{017F}' then 's'
    else c
  }

  /** strings.EqualFold */
  predicate EqualFold(a: string, b: string) {
    |a| == |b| && forall i :: 0 <= i < |a| ==> Fold(a[i]) == Fold(b[i])
  }

  lemma EqualFoldTransitive(a: string, b: string, c: string)
    requires EqualFold(a, c) && EqualFold(b, c)
    ensures EqualFold(a, b)
  {
  }

  // ----- Prefix, suffix, substring -----

  predicate HasPrefix(s: string, p: string) {
    |p| <= |s| && s[..|p|] == p
  }

  predicate HasSuffix(s: string, p: string) {
    |p| <= |s| && s[|s| - |p|..] == p
  }

  function TrimPrefix(s: string, p: string): string {
    if HasPrefix(s, p) then s[|p|..] else s
  }

  function TrimSuffix(s: string, p: string): string {
    if HasSuffix(s, p) then s[..|s| - |p|] else s
  }

  predicate OccursAt(s: string, sub: string, i: nat) {
    i + |sub| <= |s| && s[i..i + |sub|] == sub
  }

  predicate Contains(s: string, sub: string) {
    exists i: nat :: i <= |s| && OccursAt(s, sub, i)
  }

  predicate ContainsAny(s: string, chars: string) {
    exists i :: 0 <= i < |s| && s[i] in chars
  }

  // ----- Split and join on one separator -----

  /** strings.Split on a one-character separator: never empty. */
  function Split(s: string, sep: char): (parts: seq<string>)
    ensures |parts| >= 1
    ensures forall i :: 0 <= i < |parts| ==> sep !in parts[i]
    decreases |s|
  {
    if s == "" then [""]
    else
      var rest := Split(s[1..], sep);
      if s[0] == sep then [""] + rest
      else [[s[0]] + rest[0]] + rest[1..]
  }

  /** strings.Join */
  function Join(parts: seq<string>, sep: char): string {
    if parts == [] then ""
    else if |parts| == 1 then parts[0]
    else parts[0] + [sep] + Join(parts[1..], sep)
  }

  lemma {:induction false} JoinSplit(s: string, sep: char)
    ensures Join(Split(s, sep), sep) == s
    decreases |s|
  {
    if s != "" {
      JoinSplit(s[1..], sep);
      var rest := Split(s[1..], sep);
      assert s == [s[0]] + s[1..];
      if s[0] == sep {
        assert Split(s, sep)[1..] == rest;
      } else {
        var parts := [[s[0]] + rest[0]] + rest[1..];
        assert parts[1..] == rest[1..];
        if |rest| > 1 {
          assert parts[0] + [sep] + Join(rest[1..], sep) == [s[0]] + (rest[0] + [sep] + Join(rest[1..], sep));
        }
      }
    }
  }

  lemma {:induction false} SplitFree(s: string, sep: char)
    requires sep !in s
    ensures Split(s, sep) == [s]
    decreases |s|
  {
    if s != "" {
      SplitFree(s[1..], sep);
      assert s == [s[0]] + s[1..];
    }
  }

  lemma {:induction false} SplitConcat(a: string, b: string, sep: char)
    requires sep !in a
    ensures Split(a + [sep] + b, sep) == [a] + Split(b, sep)
    decreases |a|
  {
    var s := a + [sep] + b;
    if a == "" {
      assert s[1..] == b;
    } else {
      assert s[1..] == a[1..] + [sep] + b;
      SplitConcat(a[1..], b, sep);
      assert a == [a[0]] + a[1..];
    }
  }

  lemma {:induction false} SplitJoin(parts: seq<string>, sep: char)
    requires |parts| >= 1
    requires forall i :: 0 <= i < |parts| ==> sep !in parts[i]
    ensures Split(Join(parts, sep), sep) == parts
    decreases |parts|
  {
    if |parts| == 1 {
      SplitFree(parts[0], sep);
    } else {
      SplitJoin(parts[1..], sep);
      SplitConcat(parts[0], Join(parts[1..], sep), sep);
    }
  }

  /** Every character of a joined text is a separator or comes from a part. */
  lemma {:induction false} JoinCharacters(parts: seq<string>, sep: char, c: char)
    requires c in Join(parts, sep)
    ensures c == sep || exists i :: 0 <= i < |parts| && c in parts[i]
  {
    if |parts| == 1 {
      assert c in parts[0];
    } else if |parts| > 1 && c != sep {
      if c in parts[0] {
      } else {
        JoinCharacters(parts[1..], sep, c);
        var i :| 0 <= i < |parts[1..]| && c in parts[1..][i];
        assert parts[1..][i] == parts[i + 1];
      }
    }
  }

  // ----- Sorting -----

  ghost predicate SortedStrings(s: seq<string>) {
    forall i, j :: 0 <= i < j < |s| ==> LexLess(s[i], s[j])
  }

  lemma LeastString(keys: set<string>) returns (least: string)
    requires keys != {}
    ensures least in keys
    ensures forall k :: k in keys && k != least ==> LexLess(least, k)
    decreases |keys|
  {
    var k :| k in keys;
    var rest := keys - {k};
    if rest == {} {
      least := k;
      assert keys == {k};
    } else {
      var l := LeastString(rest);
      LexTotal(k, l);
      least := if LexLess(k, l) then k else l;
      forall o | o in keys && o != least ensures LexLess(least, o) {
        if o != k { assert o in rest; if least == k && o != l { LexTransitive(k, l, o); } }
      }
    }
  }

  predicate IsLeast(keys: set<string>, least: string) {
    least in keys && forall k :: k in keys && k != least ==> LexLess(least, k)
  }

  /** The members of a finite set of strings, ascending: what sort.Strings leaves behind. */
  ghost function Ascending(keys: set<string>): seq<string>
    decreases |keys|
  {
    if keys == {} then []
    else
      assert exists least :: IsLeast(keys, least) by {
        var l := LeastString(keys);
        assert IsLeast(keys, l);
      }
      var least :| IsLeast(keys, least);
      [least] + Ascending(keys - {least})
  }

  lemma {:induction false} AscendingSpec(keys: set<string>)
    ensures SortedStrings(Ascending(keys))
    ensures forall k :: k in Ascending(keys) <==> k in keys
    decreases |keys|
  {
    if keys != {} {
      var a := Ascending(keys);
      assert a[1..] == Ascending(keys - {a[0]});
      AscendingSpec(keys - {a[0]});
      forall i, j | 0 <= i < j < |a| ensures LexLess(a[i], a[j]) {
        assert a[j] == a[1..][j - 1] && a[j] in a[1..];
        if i > 0 { assert a[i] == a[1..][i - 1]; }
      }
      forall k ensures k in a <==> k in keys {
        assert k in a <==> k == a[0] || k in a[1..];
      }
    }
  }

  /** Strictly ascending sequences are determined by their members. */
  lemma {:induction false} SortedUnique(a: seq<string>, b: seq<string>)
    requires SortedStrings(a) && SortedStrings(b)
    requires forall k :: k in a <==> k in b
    ensures a == b
    decreases |a|
  {
    assert b != [] ==> b[0] in b;
    if a != [] {
      assert a[0] in b;
      var i :| 0 <= i < |b| && b[i] == a[0];
      assert b[0] in a;
      var j :| 0 <= j < |a| && a[j] == b[0];
      if i > 0 && j > 0 {
        LexTransitive(a[0], b[0], a[0]);
        LexIrreflexive(a[0]);
      }
      assert a[0] == b[0];
      forall k ensures k in a[1..] <==> k in b[1..] {
        TailMembers(a, k);
        TailMembers(b, k);
      }
      SortedUnique(a[1..], b[1..]);
      assert a == [a[0]] + a[1..] && b == [b[0]] + b[1..];
    }
  }

  lemma TailMembers(a: seq<string>, k: string)
    requires SortedStrings(a) && a != []
    ensures k in a[1..] <==> k in a && k != a[0]
  {
    LexIrreflexive(a[0]);
    if k in a[1..] {
      var i :| 0 <= i < |a[1..]| && a[1..][i] == k;
      assert a[i + 1] == k;
    }
    if k in a && k != a[0] {
      var i :| 0 <= i < |a| && a[i] == k;
      assert a[1..][i - 1] == k;
    }
  }
}
