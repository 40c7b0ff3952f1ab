/**
 Registry.Resolve (internal/adapter/registry/resolve.go) over the declared GitHub and Cloudflare
 tables: Go visits the capability map in no particular order, and it does not matter.
 */
module Routes {
  import opened Results
  import opened Text
  import opened Paths

  datatype Method = Get | Post | Put | Patch | Delete

  function Verb(m: Method): string {
    match m
    case Get => "GET"
    case Post => "POST"
    case Put => "PUT"
    case Patch => "PATCH"
    case Delete => "DELETE"
  }

  /** The part of a capability Resolve looks at; the path is its segments, joined. */
  datatype Capability = Capability(operation: string, verb: Method, segments: seq<string>)
  {
    function Path(): string { "/" + Join(segments, '/') }
  }

  // ----- Resolve -----

  predicate Answers(c: Capability, verb: string, path: string) {
    EqualFold(Verb(c.verb), verb) && Matches(c.Path(), path)
  }

  class Registry {
    const capabilities: map<string, map<string, Capability>>

    constructor (capabilities: map<string, map<string, Capability>>)
      ensures this.capabilities == capabilities
    {
      this.capabilities := capabilities;
    }

    /** The loop takes the operations in whatever order they come. */
    method Resolve(service: string, verb: string, path: string) returns (r: Result<(Capability, Values)>)
      ensures r.Ok? ==>
        && service in capabilities && r.value.0 in capabilities[service].Values && Answers(r.value.0, verb, path)
        && r.value.1 == Captured(Segments(r.value.0.Path()), Segments(path))
      ensures r.Err? ==> r.code == CapabilityNotOffered
      ensures r.Err? && service in capabilities ==>
        forall c :: c in capabilities[service].Values ==> !Answers(c, verb, path)
    {
      if service !in capabilities { return Err(CapabilityNotOffered); }
      var operations := capabilities[service];
      var rest := operations.Keys;
      while rest != {}
        invariant rest <= operations.Keys
        invariant forall o :: o in operations && o !in rest ==> !Answers(operations[o], verb, path)
        decreases |rest|
      {
        var o :| o in rest;
        rest := rest - {o};
        var c := operations[o];
        if !EqualFold(Verb(c.verb), verb) { continue; }
        var matched := MatchPath(c.Path(), path);
        if matched.Some? { return Ok((c, matched.value)); }
      }
      return Err(CapabilityNotOffered);
    }
  }

  /** No verb and path answer to two of these capabilities. */
  ghost predicate Unambiguous(table: set<Capability>) {
    forall c, d, verb, path :: c in table && d in table && Answers(c, verb, path) && Answers(d, verb, path) ==> c == d
  }

  /** For such a table any two runs of the loop, in any two orders, give the same answer. */
  lemma OrderDoesNotMatter(
    table: set<Capability>, verb: string, path: string,
    r: Result<(Capability, Values)>, s: Result<(Capability, Values)>)
    requires Unambiguous(table)
    requires r.Ok? ==> r.value.0 in table && Answers(r.value.0, verb, path)
                       && r.value.1 == Captured(Segments(r.value.0.Path()), Segments(path))
    requires s.Ok? ==> s.value.0 in table && Answers(s.value.0, verb, path)
                       && s.value.1 == Captured(Segments(s.value.0.Path()), Segments(path))
    requires r.Err? ==> r.code == CapabilityNotOffered && forall c :: c in table ==> !Answers(c, verb, path)
    requires s.Err? ==> s.code == CapabilityNotOffered && forall c :: c in table ==> !Answers(c, verb, path)
    ensures r == s
  {
    if r.Ok? && s.Ok? { assert r.value.0 == s.value.0; }
  }

  // ----- The declared tables -----

  const OWNER := "{owner}"
  const REPO := "{repo}"

  const GITHUB_READ: seq<Capability> := [
    Capability("read_repository", Get, ["repos", OWNER, REPO]),
    Capability("read_issue", Get, ["repos", OWNER, REPO, "issues", "{number}"]),
    Capability("read_pull_request", Get, ["repos", OWNER, REPO, "pulls", "{number}"]),
    Capability("read_actions_run", Get, ["repos", OWNER, REPO, "actions", "runs", "{run_id}"]),
    Capability("read_actions_logs", Get, ["repos", OWNER, REPO, "actions", "runs", "{run_id}", "logs"])]

  const GITHUB_CREATE: seq<Capability> := [
    Capability("create_issue", Post, ["repos", OWNER, REPO, "issues"]),
    Capability("create_pull_request", Post, ["repos", OWNER, REPO, "pulls"]),
    Capability("create_comment", Post, ["repos", OWNER, REPO, "issues", "{number}", "comments"]),
    Capability("create_branch", Post, ["repos", OWNER, REPO, "git", "refs"])]

  const GITHUB_CHANGE: seq<Capability> := [
    Capability("merge_default_branch", Put, ["repos", OWNER, REPO, "pulls", "{number}", "merge"]),
    Capability("update_collaborator", Put, ["repos", OWNER, REPO, "collaborators", "{username}"]),
    Capability("update_secret", Put, ["repos", OWNER, REPO, "actions", "secrets", "{secret_name}"]),
    Capability("update_actions_permissions", Put, ["repos", OWNER, REPO, "actions", "permissions"])]

  const GITHUB_DELETE: seq<Capability> := [
    Capability("delete_repository", Delete, ["repos", OWNER, REPO])]

  const CLOUDFLARE_READ: seq<Capability> := [
    Capability("read_zone", Get, ["zones", "{zone_id}"]),
    Capability("read_dns_records", Get, ["zones", "{zone_id}", "dns_records"]),
    Capability("read_dns_record", Get, ["zones", "{zone_id}", "dns_records", "{record_id}"]),
    Capability("read_tunnel", Get, ["accounts", "{account_id}", "cfd_tunnel", "{tunnel_id}"])]

  const CLOUDFLARE_CREATE: seq<Capability> := [
    Capability("create_dns_record", Post, ["zones", "{zone_id}", "dns_records"]),
    Capability("purge_cache", Post, ["zones", "{zone_id}", "purge_cache"])]

  const CLOUDFLARE_CHANGE: seq<Capability> := [
    Capability("update_dns_record", Put, ["zones", "{zone_id}", "dns_records", "{record_id}"]),
    Capability("manage_token", Put, ["user", "tokens", "{token_id}"]),
    Capability("manage_member", Put, ["accounts", "{account_id}", "members", "{member_id}"]),
    Capability("update_security_rules", Put, ["zones", "{zone_id}", "firewall", "rules", "{rule_id}"])]

  const CLOUDFLARE_PATCH: seq<Capability> := [
    Capability("bulk_update_dns", Patch, ["zones", "{zone_id}", "dns_records"])]

  const CLOUDFLARE_DELETE: seq<Capability> := [
    Capability("delete_dns_record", Delete, ["zones", "{zone_id}", "dns_records", "{record_id}"]),
    Capability("delete_zone", Delete, ["zones", "{zone_id}"])]

  function Declared(table: seq<Capability>): set<Capability> {
    set c | c in table
  }

  const GITHUB: set<Capability> :=
    Declared(GITHUB_READ) + Declared(GITHUB_CREATE) + Declared(GITHUB_CHANGE) + Declared(GITHUB_DELETE)

  const CLOUDFLARE: set<Capability> :=
    Declared(CLOUDFLARE_READ) + Declared(CLOUDFLARE_CREATE) + Declared(CLOUDFLARE_CHANGE)
    + Declared(CLOUDFLARE_PATCH) + Declared(CLOUDFLARE_DELETE)

  // ----- They are unambiguous -----

  lemma VerbsDiffer(a: Method, b: Method)
    requires EqualFold(Verb(a), Verb(b))
    ensures a == b
  {
    assert Fold(Verb(a)[0]) == Fold(Verb(b)[0]);
    assert |Verb(a)| == |Verb(b)|;
  }

  /** Segments free of slashes are what the path splits into. */
  lemma PathSegments(c: Capability)
    requires c.segments != [] && forall i :: 0 <= i < |c.segments| ==> '/' !in c.segments[i]
    ensures Segments(c.Path()) == c.segments
  {
    SlashPrefix(Join(c.segments, '/'));
    SplitJoin(c.segments, '/');
  }

  ghost predicate Plain(c: Capability) {
    c.segments != [] && forall i :: 0 <= i < |c.segments| ==> '/' !in c.segments[i]
  }

  /** A table of one verb whose members are pairwise apart. */
  ghost predicate PairwiseApart(table: seq<Capability>, verb: Method) {
    && (forall i :: 0 <= i < |table| ==> table[i].verb == verb && Plain(table[i]))
    && (forall i, j :: 0 <= i < j < |table| ==> Apart(table[i].segments, table[j].segments))
  }

  lemma ApartAnswersOnce(c: Capability, d: Capability, verb: string, path: string)
    requires Plain(c) && Plain(d) && Apart(c.segments, d.segments)
    ensures !(Answers(c, verb, path) && Answers(d, verb, path))
  {
    PathSegments(c);
    PathSegments(d);
    ApartShareNoPath(c.Path(), d.Path(), path);
  }

  lemma SameVerb(c: Capability, d: Capability, verb: string, path: string)
    requires Answers(c, verb, path) && Answers(d, verb, path)
    ensures c.verb == d.verb
  {
    EqualFoldTransitive(Verb(c.verb), Verb(d.verb), verb);
    VerbsDiffer(c.verb, d.verb);
  }

  lemma WithinTable(table: seq<Capability>, v: Method, c: Capability, d: Capability, verb: string, path: string)
    requires PairwiseApart(table, v) && c in table && d in table
    requires Answers(c, verb, path) && Answers(d, verb, path)
    ensures c == d
  {
    var i :| 0 <= i < |table| && table[i] == c;
    var j :| 0 <= j < |table| && table[j] == d;
    if i < j { ApartAnswersOnce(table[i], table[j], verb, path); }
    if j < i { ApartAnswersOnce(table[j], table[i], verb, path); }
  }

  lemma GithubReadPlain()
    ensures forall i :: 0 <= i < |GITHUB_READ| ==> Plain(GITHUB_READ[i])
  {
  }

  lemma GithubReadApart()
    ensures PairwiseApart(GITHUB_READ, Get)
  {
    var t := GITHUB_READ;
    GithubReadPlain();
    assert DifferAt(t[1].segments, t[2].segments, 3) by { assert "issues"[0] != "pulls"[0]; }
  }

  lemma GithubCreateApart()
    ensures PairwiseApart(GITHUB_CREATE, Post)
  {
    var t := GITHUB_CREATE;
    assert DifferAt(t[0].segments, t[1].segments, 3) by { assert "issues"[0] != "pulls"[0]; }
  }

  lemma GithubChangePlain()
    ensures forall i :: 0 <= i < |GITHUB_CHANGE| ==> Plain(GITHUB_CHANGE[i])
  {
  }

  lemma GithubChangeApart()
    ensures PairwiseApart(GITHUB_CHANGE, Put)
  {
    var t := GITHUB_CHANGE;
    GithubChangePlain();
    assert DifferAt(t[0].segments, t[2].segments, 3) by { assert "pulls"[0] != "actions"[0]; }
    assert DifferAt(t[1].segments, t[3].segments, 3) by { assert "collaborators"[0] != "actions"[0]; }
  }

  lemma CloudflareReadPlain()
    ensures forall i :: 0 <= i < |CLOUDFLARE_READ| ==> Plain(CLOUDFLARE_READ[i])
  {
  }

  lemma CloudflareReadApart()
    ensures PairwiseApart(CLOUDFLARE_READ, Get)
  {
    var t := CLOUDFLARE_READ;
    CloudflareReadPlain();
    assert DifferAt(t[2].segments, t[3].segments, 0) by { assert "zones"[0] != "accounts"[0]; }
  }

  lemma CloudflareCreateApart()
    ensures PairwiseApart(CLOUDFLARE_CREATE, Post)
  {
    var t := CLOUDFLARE_CREATE;
    assert DifferAt(t[0].segments, t[1].segments, 2) by { assert "dns_records"[0] != "purge_cache"[0]; }
  }

  lemma CloudflareChangePlain()
    ensures forall i :: 0 <= i < |CLOUDFLARE_CHANGE| ==> Plain(CLOUDFLARE_CHANGE[i])
  {
  }

  lemma CloudflareChangeApart()
    ensures PairwiseApart(CLOUDFLARE_CHANGE, Put)
  {
    var t := CLOUDFLARE_CHANGE;
    CloudflareChangePlain();
    assert DifferAt(t[0].segments, t[2].segments, 0) by { assert "zones"[0] != "accounts"[0]; }
  }

  lemma CloudflareDeleteApart()
    ensures PairwiseApart(CLOUDFLARE_DELETE, Delete)
  {
  }

  /** No verb and path, over all strings, match two of the fourteen GitHub templates. */
  lemma GithubUnambiguous()
    ensures Unambiguous(GITHUB)
  {
    GithubReadApart();
    GithubCreateApart();
    GithubChangeApart();
    forall c, d, verb, path | c in GITHUB && d in GITHUB && Answers(c, verb, path) && Answers(d, verb, path)
      ensures c == d
    {
      SameVerb(c, d, verb, path);
      match c.verb
      case Get => WithinTable(GITHUB_READ, Get, c, d, verb, path);
      case Post => WithinTable(GITHUB_CREATE, Post, c, d, verb, path);
      case Put => WithinTable(GITHUB_CHANGE, Put, c, d, verb, path);
      case Patch =>
      case Delete =>
    }
  }

  function CloudflareTable(verb: Method): seq<Capability> {
    match verb
    case Get => CLOUDFLARE_READ
    case Post => CLOUDFLARE_CREATE
    case Put => CLOUDFLARE_CHANGE
    case Patch => CLOUDFLARE_PATCH
    case Delete => CLOUDFLARE_DELETE
  }

  lemma CloudflareByVerb(c: Capability)
    requires c in CLOUDFLARE
    ensures c in CloudflareTable(c.verb)
  {
  }

  lemma CloudflareApart(verb: Method)
    ensures PairwiseApart(CloudflareTable(verb), verb)
  {
    match verb
    case Get => CloudflareReadApart();
    case Post => CloudflareCreateApart();
    case Put => CloudflareChangeApart();
    case Patch =>
    case Delete => CloudflareDeleteApart();
  }

  /** Nor two of the thirteen Cloudflare templates. */
  lemma CloudflareUnambiguous()
    ensures Unambiguous(CLOUDFLARE)
  {
    forall c, d, verb, path | c in CLOUDFLARE && d in CLOUDFLARE && Answers(c, verb, path) && Answers(d, verb, path)
      ensures c == d
    {
      SameVerb(c, d, verb, path);
      CloudflareByVerb(c);
      CloudflareByVerb(d);
      CloudflareApart(c.verb);
      WithinTable(CloudflareTable(c.verb), c.verb, c, d, verb, path);
    }
  }
}
