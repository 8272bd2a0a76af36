/** pkg/registry: container image references. */
module ImageReference {
  import opened Prelude
  import Text

  datatype Reference = Reference(host: string, repo: string, tag: string)

  datatype ReferenceError = EmptyReference

  /** The last colon starts a tag unless a slash follows it. */
  predicate HasTag(ref: string) {
    var i := Text.LastIndex(ref, ':');
    i >= 0 && '/' !in ref[i..]
  }

  predicate HostLike(first: string) {
    '.' in first || ':' in first || first == "localhost"
  }

  /** The untagged part, split at its first slash when that ends a host. */
  function SplitHost(ref: string, tag: string): Reference {
    var slash := Text.Index(ref, '/');
    if slash >= 0 && HostLike(ref[..slash]) then Reference(ref[..slash], ref[slash + 1..], tag)
    else Reference("", ref, tag)
  }

  function ParseTrimmed(ref: string): Reference {
    if HasTag(ref) then
      var i := Text.LastIndex(ref, ':');
      SplitHost(ref[..i], ref[i + 1..])
    else
      SplitHost(ref, LATEST)
  }

  function ParseReference(ref: string): Result<Reference, ReferenceError> {
    var t := Text.TrimSpace(ref);
    if t == "" then Err(EmptyReference) else Ok(ParseTrimmed(t))
  }

  function JoinReference(host: string, repo: string, tag: string): string {
    if host == "" then repo + ":" + tag else host + "/" + repo + ":" + tag
  }

  function Join(r: Reference): string { JoinReference(r.host, r.repo, r.tag) }

  lemma JoinSplit(ref: string, tag: string)
    ensures SplitHost(ref, tag).tag == tag
    ensures Join(SplitHost(ref, tag)) == ref + ":" + tag
  {
    var slash := Text.Index(ref, '/');
    if slash >= 0 {
      assert ref == ref[..slash] + "/" + ref[slash + 1..];
      assert ref[..slash] == "" ==> !HostLike(ref[..slash]);
    }
  }

  lemma LastColon(a: string, t: string)
    requires ':' !in t
    ensures Text.LastIndex(a + ":" + t, ':') == |a|
    ensures HasTag(a + ":" + t) <==> '/' !in t
  {
    var s := a + ":" + t;
    assert s[|a| + 1..] == t && s[|a|..] == ":" + t;
    Text.LastIndexIs(s, ':', |a|);
  }

  lemma ParseTagged(a: string, t: string)
    requires ':' !in t && '/' !in t
    ensures ParseTrimmed(a + ":" + t) == SplitHost(a, t)
  {
    LastColon(a, t);
    var s := a + ":" + t;
    assert s[..|a|] == a && s[|a| + 1..] == t;
  }

  /** A tagged string is its untagged part, a colon and the tag. */
  lemma TagParts(t: string)
    requires HasTag(t)
    ensures var i := Text.LastIndex(t, ':');
            t == t[..i] + ":" + t[i + 1..] && ':' !in t[i + 1..] && '/' !in t[i + 1..]
  {
    var i := Text.LastIndex(t, ':');
    assert t[i..] == [':'] + t[i + 1..];
  }

  const LATEST := "latest"

  lemma JoinTagged(t: string)
    requires HasTag(t)
    ensures Join(ParseTrimmed(t)) == t
    ensures ':' !in ParseTrimmed(t).tag && '/' !in ParseTrimmed(t).tag
  {
    var i := Text.LastIndex(t, ':');
    TagParts(t);
    JoinSplit(t[..i], t[i + 1..]);
  }

  lemma JoinTrimmed(t: string)
    ensures Join(ParseTrimmed(t)) == Completed(t)
    ensures ':' !in ParseTrimmed(t).tag && '/' !in ParseTrimmed(t).tag
  {
    if HasTag(t) { JoinTagged(t); } else { JoinSplit(t, LATEST); }
  }

  lemma LatestParses(t: string)
    requires !HasTag(t)
    ensures ParseTrimmed(t + ":" + LATEST) == ParseTrimmed(t)
  {
    ParseTagged(t, LATEST);
  }

  /** A reference with its tag written out. */
  function Completed(t: string): string {
    if HasTag(t) then t else t + ":" + LATEST
  }

  lemma CompletedIsBare(s: string)
    requires Text.TrimSpace(s) != ""
    ensures var u := Completed(Text.TrimSpace(s)); u != "" && Text.TrimSpace(u) == u
  {
    var t := Text.TrimSpace(s);
    Text.TrimIsBare(s, Text.IsSpace);
    Text.NothingToTrim(Completed(t));
  }

  lemma BareParses(u: string)
    requires u != "" && Text.TrimSpace(u) == u
    ensures ParseReference(u) == Ok(ParseTrimmed(u))
  {
  }

  lemma CompletedParses(t: string, u: string)
    requires u == Completed(t)
    ensures ParseTrimmed(u) == ParseTrimmed(t)
  {
    if !HasTag(t) { LatestParses(t); }
  }

  /** Joining a parsed reference gives back the trimmed string, completed with
    * ":latest" when it had no tag, and parsing that changes nothing more. */
  lemma JoinOfParse(s: string)
    requires Text.TrimSpace(s) != ""
    ensures var t := Text.TrimSpace(s);
            && ParseReference(s).Ok?
            && Join(ParseReference(s).value) == Completed(t)
            && ParseReference(Join(ParseReference(s).value)) == ParseReference(s)
  {
    var t := Text.TrimSpace(s);
    var u := Completed(t);
    JoinTrimmed(t);
    CompletedIsBare(s);
    BareParses(u);
    CompletedParses(t, u);
  }

  // --------------------------------------------------------- what it finds

  /** A tag is what follows the last colon, if no slash does; else it is "latest". */
  predicate Tagged(t: string, u: string, tag: string) {
    if exists i :: 0 <= i < |t| && t[i] == ':' && '/' !in t[i + 1..] then
      t == u + ":" + tag && ':' !in tag && '/' !in tag
    else
      u == t && tag == "latest"
  }

  /** Text before the first slash that can only be a registry: it has a dot or a port, or
    * is the local machine. */
  predicate NamesRegistry(first: string) {
    first == "localhost" || exists i :: 0 <= i < |first| && (first[i] == '.' || first[i] == ':')
  }

  predicate StartsWithRegistry(u: string) {
    exists k :: 0 <= k < |u| && u[k] == '/' && '/' !in u[..k] && NamesRegistry(u[..k])
  }

  lemma HasTagMeans(t: string)
    ensures HasTag(t) <==> exists i :: 0 <= i < |t| && t[i] == ':' && '/' !in t[i + 1..]
  {
    var i := Text.LastIndex(t, ':');
    if HasTag(t) { assert '/' !in t[i + 1..] by { assert t[i..] == [t[i]] + t[i + 1..]; } }
    if k :| 0 <= k < |t| && t[k] == ':' && '/' !in t[k + 1..] {
      assert k <= i;
      forall j | i <= j < |t| ensures t[j] != '/' { if j > k { assert t[k + 1..][j - k - 1] == t[j]; } }
    }
  }

  lemma SplitHostMeans(u: string, tag: string)
    ensures var r := SplitHost(u, tag);
            && r.tag == tag && (r.host != "" <==> StartsWithRegistry(u))
            && if r.host == "" then r.repo == u else u == r.host + "/" + r.repo && '/' !in r.host
  {
    var slash := Text.Index(u, '/');
    if slash >= 0 { assert u == u[..slash] + "/" + u[slash + 1..]; }
    if k :| 0 <= k < |u| && u[k] == '/' && '/' !in u[..k] && NamesRegistry(u[..k]) {
      Text.IndexIs(u, '/', k);
      assert HostLike(u[..k]) && u[..k] != "";
    }
  }

  /** Where a reference is cut: the tag after the last colon that no slash follows, or
    * "latest"; the host before the first slash where that names a registry, and none
    * where it is a namespace; and the repository in between, whole. */
  lemma ParseMeans(s: string) returns (u: string, tag: string)
    requires Text.TrimSpace(s) != ""
    ensures Tagged(Text.TrimSpace(s), u, tag) && ParseReference(s).Ok?
    ensures var r := ParseReference(s).value;
            && r.tag == tag && (r.host != "" <==> StartsWithRegistry(u))
            && if r.host == "" then r.repo == u else u == r.host + "/" + r.repo && '/' !in r.host
  {
    var t := Text.TrimSpace(s);
    var i := Text.LastIndex(t, ':');
    HasTagMeans(t);
    if HasTag(t) {
      TagParts(t);
      u, tag := t[..i], t[i + 1..];
    } else {
      u, tag := t, LATEST;
    }
    SplitHostMeans(u, tag);
  }

  /** What a caller must check for a triple to survive joining and parsing. */
  predicate Recoverable(host: string, repo: string, tag: string) {
    var full := JoinReference(host, repo, tag);
    var slash := Text.Index(repo, '/');
    && !Text.IsSpace(full[0]) && !Text.IsSpace(full[|full| - 1])
    && ':' !in tag && '/' !in tag
    && if host == "" then slash < 0 || !HostLike(repo[..slash]) else HostLike(host) && '/' !in host
  }

  function Untagged(host: string, repo: string): string {
    if host == "" then repo else host + "/" + repo
  }

  lemma SplitRecovers(host: string, repo: string, tag: string)
    ensures SplitHost(Untagged(host, repo), tag) == Reference(host, repo, tag) <==>
            var slash := Text.Index(repo, '/');
            if host == "" then slash < 0 || !HostLike(repo[..slash]) else HostLike(host) && '/' !in host
  {
    var a := Untagged(host, repo);
    if host != "" {
      assert a[..|host|] == host && a[|host| + 1..] == repo;
      if '/' !in host {
        Text.IndexIs(a, '/', |host|);
      } else {
        var k := Text.Index(host, '/');
        assert a[..k] == host[..k];
        Text.IndexIs(a, '/', k);
      }
    }
  }

  /** Parsing what was joined returns the original triple exactly when the triple
    * is recoverable; whitespace inside, or an empty tag, does no harm. */
  lemma ParseOfJoin(host: string, repo: string, tag: string)
    ensures ParseReference(JoinReference(host, repo, tag)) == Ok(Reference(host, repo, tag))
            <==> Recoverable(host, repo, tag)
  {
    var full := JoinReference(host, repo, tag);
    var a := Untagged(host, repo);
    assert full == a + ":" + tag;
    if Recoverable(host, repo, tag) {
      Text.NothingToTrim(full);
      ParseTagged(a, tag);
      SplitRecovers(host, repo, tag);
    } else if ParseReference(full) == Ok(Reference(host, repo, tag)) {
      NotTrimmed(full);
      JoinTrimmed(full);
      ParseTagged(a, tag);
      SplitRecovers(host, repo, tag);
      Text.TrimIsBare(full, Text.IsSpace);
      assert false;
    }
  }

  /** If joining a parsed string gives that string, trimming had nothing to do. */
  lemma NotTrimmed(full: string)
    requires ParseReference(full).Ok? && Join(ParseReference(full).value) == full
    ensures Text.TrimSpace(full) == full
  {
    var t := Text.TrimSpace(full);
    Text.TrimIsBare(full, Text.IsSpace);
    JoinTrimmed(t);
    assert full[0] == t[0];
    assert full[|full| - 1] == if HasTag(t) then t[|t| - 1] else 't';
    Text.NothingToTrim(full);
  }

  /** LastRepoName: the final path segment, so it never holds a slash, and a name
    * that is already one segment is kept. */
  function LastRepoName(repo: string): (r: string)
    ensures '/' !in r
    ensures '/' !in repo ==> r == repo
  {
    var trimmed := Text.Trim(repo, (c: char) => c == '/');
    var i := Text.LastIndex(trimmed, '/');
    assert '/' !in repo ==> trimmed == repo by { Text.TrimIsBare(repo, (c: char) => c == '/'); }
    if i >= 0 then trimmed[i + 1..] else trimmed
  }
}
