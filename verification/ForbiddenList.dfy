/**
 The forbidden list (internal/core/decision/forbidden.go): operation names cut into words, and
 words searched for keywords with a length cut-off.
 */
module ForbiddenList {
  import opened Results
  import opened Text

  datatype Forbidden =
    CredentialRequest | VaultExport | PrivilegeEscalation | AuditDisable | SelfConfiguration

  const SELF_SERVICE := "opendelo"

  const CREDENTIAL_NOUNS: seq<string> :=
    ["credential", "secret", "token", "apikey", "password", "privatekey", "passphrase"]
  const VAULT_NOUNS: seq<string> := ["vault", "keychain", "keyring"]
  const READ_VERBS: seq<string> :=
    ["read", "get", "export", "reveal", "show", "dump", "fetch", "download", "list", "unlock"]
  const AUDIT_WORDS: seq<string> := ["audit", "ledger"]
  const PRIVILEGE_WORDS: seq<string> :=
    ["scope", "permission", "privilege", "grant", "role", "policy",
     "lease", "trust", "approval", "automation"]

  /** len("privatekey") */
  const LONGEST_KEYWORD := 10

  /** Bytes of one rune in UTF-8: Go's `len` counts bytes. */
  function RuneLen(c: char): nat {
    if c as int < 0x80 then 1
    else if c as int < 0x800 then 2
    else if c as int < 0x10000 then 3
    else 4
  }

  function ByteLen(s: string): nat {
    if s == "" then 0 else ByteLen(s[..|s| - 1]) + RuneLen(s[|s| - 1])
  }

  lemma {:induction false} ByteLenConcat(a: string, b: string)
    ensures ByteLen(a + b) == ByteLen(a) + ByteLen(b)
  {
    if b == "" {
      assert a + b == a;
    } else {
      ByteLenConcat(a, b[..|b| - 1]);
      assert (a + b)[..|a + b| - 1] == a + b[..|b| - 1];
    }
  }

  lemma {:induction false} ByteLenAtLeast(s: string)
    ensures |s| <= ByteLen(s) <= 4 * |s|
    ensures (forall i :: 0 <= i < |s| ==> s[i] as int < 0x80) ==> ByteLen(s) == |s|
  {
    if s != "" { ByteLenAtLeast(s[..|s| - 1]); }
  }

  function Concat(words: seq<string>): string {
    if words == [] then "" else Concat(words[..|words| - 1]) + words[|words| - 1]
  }

  lemma {:induction false} ConcatAppend(a: seq<string>, b: seq<string>)
    ensures Concat(a + b) == Concat(a) + Concat(b)
  {
    if b == [] {
      assert a + b == a;
    } else {
      ConcatAppend(a, b[..|b| - 1]);
      assert (a + b)[..|a + b| - 1] == a + b[..|b| - 1];
    }
  }

  // ----- mentionsAny -----

  /** Some contiguous run of one or more words concatenates to a keyword. */
  predicate Mentions(words: seq<string>, keywords: seq<string>) {
    exists i, j | 0 <= i < j <= |words| :: Concat(words[i..j]) in keywords
  }

  predicate Bounded(keywords: seq<string>) {
    forall k :: k in keywords ==> ByteLen(k) <= LONGEST_KEYWORD
  }

  /** Past the cut-off no longer run from the same start can be a keyword. */
  lemma CutOffSound(words: seq<string>, keywords: seq<string>, i: nat, j: nat, k: nat)
    requires i < j <= k <= |words| && Bounded(keywords)
    requires ByteLen(Concat(words[i..j])) > LONGEST_KEYWORD
    ensures Concat(words[i..k]) !in keywords
  {
    assert words[i..k] == words[i..j] + words[j..k];
    ConcatAppend(words[i..j], words[j..k]);
    ByteLenConcat(Concat(words[i..j]), Concat(words[j..k]));
  }

  /** The nested loop with its early `break` decides the exhaustive search. */
  method MentionsAny(words: seq<string>, keywords: seq<string>) returns (found: bool)
    requires Bounded(keywords)
    ensures found <==> Mentions(words, keywords)
  {
    for start := 0 to |words|
      invariant forall i, j | 0 <= i < start && i < j <= |words| :: Concat(words[i..j]) !in keywords
    {
      var joined := "";
      var next := start;
      while next < |words|
        invariant start <= next <= |words|
        invariant joined == Concat(words[start..next])
        invariant forall j | start < j <= next :: Concat(words[start..j]) !in keywords
      {
        assert words[start..next + 1][..next - start] == words[start..next];
        joined := joined + words[next];
        next := next + 1;
        if joined in keywords { return true; }
        if ByteLen(joined) > LONGEST_KEYWORD {
          forall j | start < j <= |words| ensures Concat(words[start..j]) !in keywords {
            if j >= next { CutOffSound(words, keywords, start, next, j); }
          }
          break;
        }
      }
    }
    return false;
  }

  lemma ShortAsciiBounded(keywords: seq<string>)
    requires forall k :: k in keywords ==>
      |k| <= LONGEST_KEYWORD && forall i :: 0 <= i < |k| ==> k[i] as int < 0x80
    ensures Bounded(keywords)
  {
    forall k | k in keywords ensures ByteLen(k) <= LONGEST_KEYWORD { ByteLenAtLeast(k); }
  }

  /** Every table of the file respects the cut-off the search uses. */
  lemma TablesBounded()
    ensures Bounded(CREDENTIAL_NOUNS) && Bounded(VAULT_NOUNS) && Bounded(READ_VERBS)
    ensures Bounded(AUDIT_WORDS) && Bounded(PRIVILEGE_WORDS)
  {
    CredentialNounsBounded();
    VaultNounsBounded();
    ReadVerbsBounded();
    AuditWordsBounded();
    PrivilegeWordsBounded();
  }

  lemma CredentialNounsBounded()
    ensures Bounded(CREDENTIAL_NOUNS)
  {
    ShortAsciiBounded(CREDENTIAL_NOUNS);
  }

  lemma VaultNounsBounded()
    ensures Bounded(VAULT_NOUNS)
  {
    ShortAsciiBounded(VAULT_NOUNS);
  }

  lemma ReadVerbsBounded()
    ensures Bounded(READ_VERBS)
  {
    ShortAsciiBounded(READ_VERBS);
  }

  lemma AuditWordsBounded()
    ensures Bounded(AUDIT_WORDS)
  {
    ShortAsciiBounded(AUDIT_WORDS);
  }

  lemma PrivilegeWordsBounded()
    ensures Bounded(PRIVILEGE_WORDS)
  {
    ShortAsciiBounded(PRIVILEGE_WORDS);
  }

  // ----- segmentsOf -----

  predicate Separator(c: char) {
    c == '-' || c == '_' || c == '.' || c == '/' || c == ' '
  }

  /** The capitals outside ASCII that unicode.IsUpper knows. The value is left open: whatever is proved
      here holds for every such set. */
  const OTHER_CAPITALS: set<char>

  predicate IsUpper(c: char) {
    'A' <= c <= 'Z' || c in OTHER_CAPITALS
  }

  /** One flushed segment: lower case, and a plural s dropped from words longer than three bytes. */
  function Singular(word: string): string {
    if ByteLen(word) > 3 && HasSuffix(word, "s") then word[..|word| - 1] else word
  }

  function Flush(cut: seq<string>, current: string): seq<string> {
    if current == "" then cut else cut + [current]
  }

  /** The segments still in their original case: those flushed, and the one being collected. */
  function Cut(operation: string): (seq<string>, string) {
    if operation == "" then ([], "")
    else
      var (cut, current) := Cut(operation[..|operation| - 1]);
      var letter := operation[|operation| - 1];
      if Separator(letter) then (Flush(cut, current), "")
      else if IsUpper(letter) then (Flush(cut, current), [letter])
      else (cut, current + [letter])
  }

  function RawSegments(operation: string): seq<string> {
    Flush(Cut(operation).0, Cut(operation).1)
  }

  function Words(cut: seq<string>): (words: seq<string>)
    ensures |words| == |cut|
    ensures forall i :: 0 <= i < |words| ==> words[i] == Singular(LowerText(cut[i]))
  {
    seq(|cut|, i requires 0 <= i < |cut| => Singular(LowerText(cut[i])))
  }

  function SegmentsSpec(operation: string): seq<string> {
    Words(RawSegments(operation))
  }

  method FlushWord(words: seq<string>, current: string) returns (r: seq<string>)
    ensures r == if current == "" then words else words + [Singular(LowerText(current))]
  {
    if current == "" { return words; }
    var word := LowerText(current);
    if ByteLen(word) > 3 && HasSuffix(word, "s") {
      word := TrimSuffix(word, "s");
    }
    return words + [word];
  }

  method SegmentsOf(operation: string) returns (words: seq<string>)
    ensures words == SegmentsSpec(operation)
  {
    words := [];
    var current := "";
    for i := 0 to |operation|
      invariant current == Cut(operation[..i]).1
      invariant words == Words(Cut(operation[..i]).0)
    {
      var letter := operation[i];
      assert operation[..i + 1][..i] == operation[..i];
      if Separator(letter) {
        words := FlushWord(words, current);
        current := "";
      } else if IsUpper(letter) {
        words := FlushWord(words, current);
        current := [letter];
      } else {
        current := current + [letter];
      }
    }
    assert operation[..|operation|] == operation;
    words := FlushWord(words, current);
  }

  /** The operation without its separators. */
  function Letters(operation: string): string {
    if operation == "" then ""
    else
      var letter := operation[|operation| - 1];
      Letters(operation[..|operation| - 1]) + (if Separator(letter) then "" else [letter])
  }

  /** A piece is non-empty, free of separators, and a capital can only open it. */
  ghost predicate Piece(s: string) {
    && s != ""
    && (forall i :: 0 <= i < |s| ==> !Separator(s[i]))
    && (forall i :: 0 < i < |s| ==> !IsUpper(s[i]))
  }

  lemma FlushConcat(cut: seq<string>, current: string)
    ensures Concat(Flush(cut, current)) == Concat(cut) + current
  {
    if current == "" { assert Concat(cut) + current == Concat(cut); }
    else { assert (cut + [current])[..|cut|] == cut; }
  }

  ghost predicate Pieces(cut: seq<string>, current: string) {
    (forall i :: 0 <= i < |cut| ==> Piece(cut[i])) && (current == "" || Piece(current))
  }

  lemma {:induction false} CutFacts(operation: string)
    ensures Pieces(Cut(operation).0, Cut(operation).1)
    ensures Concat(Cut(operation).0) + Cut(operation).1 == Letters(operation)
  {
    if operation != "" {
      CutFacts(operation[..|operation| - 1]);
      var (cut, current) := Cut(operation[..|operation| - 1]);
      FlushConcat(cut, current);
      CutStep(cut, current, operation[|operation| - 1]);
    }
  }

  /** One more letter keeps the pieces pieces. */
  lemma CutStep(cut: seq<string>, current: string, letter: char)
    requires Pieces(cut, current)
    ensures Separator(letter) ==> Pieces(Flush(cut, current), "")
    ensures !Separator(letter) && IsUpper(letter) ==> Pieces(Flush(cut, current), [letter])
    ensures !Separator(letter) && !IsUpper(letter) ==> Pieces(cut, current + [letter])
  {
  }

  lemma LoweredPiece(s: string)
    requires Piece(s)
    ensures Singular(LowerText(s)) != ""
    ensures forall i :: 0 <= i < |Singular(LowerText(s))| ==> !Separator(Singular(LowerText(s))[i])
  {
    var word := LowerText(s);
    if |word| == 1 && HasSuffix(word, "s") { assert word == "s" && ByteLen(word[..0]) == 0; }
  }

  /** Nothing of an operation name is lost: the pieces, in order, spell it without separators; and the
      words are those pieces lowered, without a plural s, never empty, never holding a separator. */
  lemma SegmentsSpellOperation(operation: string)
    ensures Concat(RawSegments(operation)) == Letters(operation)
    ensures forall i :: 0 <= i < |RawSegments(operation)| ==> Piece(RawSegments(operation)[i])
    ensures forall i :: 0 <= i < |SegmentsSpec(operation)| ==>
      var word := SegmentsSpec(operation)[i];
      && word != ""
      && (forall j :: 0 <= j < |word| ==> !Separator(word[j]))
      && word == Singular(LowerText(RawSegments(operation)[i]))
  {
    CutFacts(operation);
    FlushConcat(Cut(operation).0, Cut(operation).1);
    forall i | 0 <= i < |RawSegments(operation)| ensures Piece(RawSegments(operation)[i]) {
    }
    forall i | 0 <= i < |SegmentsSpec(operation)|
      ensures SegmentsSpec(operation)[i] != ""
      ensures forall j :: 0 <= j < |SegmentsSpec(operation)[i]| ==> !Separator(SegmentsSpec(operation)[i][j])
    {
      LoweredPiece(RawSegments(operation)[i]);
    }
  }

  // ----- Classification -----

  function Classified(service: string, operation: string): Option<Forbidden> {
    var words := SegmentsSpec(operation);
    var reading := Mentions(words, READ_VERBS);
    if reading && Mentions(words, VAULT_NOUNS) then Some(VaultExport)
    else if reading && Mentions(words, CREDENTIAL_NOUNS) then Some(CredentialRequest)
    else if !EqualFold(service, SELF_SERVICE) then None
    else if Mentions(words, AUDIT_WORDS) then Some(AuditDisable)
    else if Mentions(words, PRIVILEGE_WORDS) then Some(PrivilegeEscalation)
    else Some(SelfConfiguration)
  }

  method Classify(service: string, operation: string) returns (r: Option<Forbidden>)
    ensures r == Classified(service, operation)
  {
    TablesBounded();
    var words := SegmentsOf(operation);
    var reading := MentionsAny(words, READ_VERBS);
    var vault := MentionsAny(words, VAULT_NOUNS);
    var credential := MentionsAny(words, CREDENTIAL_NOUNS);
    if reading && vault { return Some(VaultExport); }
    if reading && credential { return Some(CredentialRequest); }
    if !EqualFold(service, SELF_SERVICE) { return None; }
    var audit := MentionsAny(words, AUDIT_WORDS);
    if audit { return Some(AuditDisable); }
    var privilege := MentionsAny(words, PRIVILEGE_WORDS);
    if privilege { return Some(PrivilegeEscalation); }
    return Some(SelfConfiguration);
  }
}
