/** internal/controller/aibrix_routing.go: the HTTPRoute name of a served model. */
module RouteName {
  import Text

  predicate Alnum(c: char) { 'a' <= c <= 'z' || '0' <= c <= '9' }

  predicate LabelChar(c: char) { Alnum(c) || c == '-' }

  predicate IsDash(c: char) { c == '-' }

  /** One DNS-1123 label: section 2.1 of RFC 1123, in lower case. */
  predicate Label(s: string) {
    s != "" && Alnum(s[0]) && Alnum(s[|s| - 1]) && forall i :: 0 <= i < |s| ==> LabelChar(s[i])
  }

  predicate Labels(s: string)
    decreases |s|
  {
    var dot := Text.Index(s, '.');
    if dot < 0 then Label(s) else Label(s[..dot]) && Labels(s[dot + 1..])
  }

  /** Kubernetes' IsDNS1123Subdomain. */
  predicate Subdomain(s: string) { |s| <= 253 && Labels(s) }

  const SUFFIX := "-router"

  const HASH_LENGTH: nat := 12

  const MAX_BASE: nat := 253 - |SUFFIX| - 1 - HASH_LENGTH

  predicate IsHexDigest(h: string) {
    |h| == 64 && forall i :: 0 <= i < |h| ==> '0' <= h[i] <= '9' || 'a' <= h[i] <= 'f'
  }

  /** Every run of other characters becomes one dash. */
  function Sanitized(s: string): string {
    if s == "" then ""
    else
      var p, c := Sanitized(s[..|s| - 1]), s[|s| - 1];
      if Alnum(c) then p + [c]
      else if p != "" && p[|p| - 1] == '-' then p
      else p + "-"
  }

  function KeepAlnum(s: string): string {
    if s == "" then ""
    else KeepAlnum(s[..|s| - 1]) + if Alnum(s[|s| - 1]) then [s[|s| - 1]] else ""
  }

  /** Sanitising keeps the usable characters in their order and leaves single
    * dashes, and nothing else, between them. */
  lemma {:induction false} SanitizedContents(s: string)
    ensures var r := Sanitized(s);
            && KeepAlnum(r) == KeepAlnum(s)
            && (forall i :: 0 <= i < |r| ==> LabelChar(r[i]))
            && (forall i :: 0 < i < |r| ==> r[i - 1] != '-' || r[i] != '-')
  {
    if s == "" {
    } else {
      var p, r := Sanitized(s[..|s| - 1]), Sanitized(s);
      SanitizedContents(s[..|s| - 1]);
      if r != p { assert r[..|r| - 1] == p; }
    }
  }

  function Base(lowered: string): string {
    var b := Text.Trim(Sanitized(lowered), IsDash);
    if b == "" then "model" else b
  }

  function Truncated(b: string): string {
    if |b| > MAX_BASE then Text.Trim(b[..MAX_BASE], IsDash) else b
  }

  function Lowered(s: string, lower: char -> char): string {
    seq(|s|, i requires 0 <= i < |s| => lower(s[i]))
  }

  /** `lower` is Unicode lower-casing and `digest` the hex SHA-256; nothing is
    * assumed of the first, and of the second only its form. */
  function RouteName(model: string, lower: char -> char, digest: string -> string): string
    requires |digest(model)| == 64
  {
    var candidate := model + SUFFIX;
    if Subdomain(candidate) then candidate
    else Truncated(Base(Lowered(model, lower))) + "-" + digest(model)[..HASH_LENGTH] + SUFFIX
  }

  /** modelRouteName. */
  method ModelRouteName(model: string, lower: char -> char, digest: string -> string) returns (name: string)
    requires IsHexDigest(digest(model))
    ensures name == RouteName(model, lower, digest)
  {
    var candidate := model + SUFFIX;
    if Subdomain(candidate) { return candidate; }
    var b := "";
    var lastDash := false;
    for i := 0 to |model|
      invariant b == Sanitized(Lowered(model, lower)[..i])
      invariant lastDash <==> b != "" && b[|b| - 1] == '-'
    {
      assert Lowered(model, lower)[..i + 1][..i] == Lowered(model, lower)[..i];
      var r := lower(model[i]);
      if Alnum(r) {
        b := b + [r];
        lastDash := false;
      } else if !lastDash {
        b := b + "-";
        lastDash := true;
      }
    }
    assert Lowered(model, lower)[..|model|] == Lowered(model, lower);
    var base := Text.Trim(b, IsDash);
    if base == "" { base := "model"; }
    var hash := digest(model)[..HASH_LENGTH];
    var maxBase := 253 - |SUFFIX| - 1 - |hash|;
    if |base| > maxBase {
      base := Text.Trim(base[..maxBase], IsDash);
    }
    return base + "-" + hash + SUFFIX;
  }

  lemma TrimmedLabel(s: string)
    requires forall c :: c in s ==> LabelChar(c)
    ensures var t := Text.Trim(s, IsDash); t == "" || Label(t)
  {
    Text.TrimMembers(s, IsDash);
    Text.TrimIsBare(s, IsDash);
    var t := Text.Trim(s, IsDash);
    forall i | 0 <= i < |t| ensures LabelChar(t[i]) { assert t[i] in t; }
  }

  lemma BaseIsLabel(lowered: string)
    ensures Label(Base(lowered))
  {
    SanitizedContents(lowered);
    TrimmedLabel(Sanitized(lowered));
  }

  lemma TruncatedIsLabel(b: string)
    requires Label(b)
    ensures Label(Truncated(b)) && |Truncated(b)| <= MAX_BASE
  {
    if |b| > MAX_BASE {
      var p := b[..MAX_BASE];
      assert forall i :: 0 <= i < |p| ==> p[i] == b[i];
      TrimmedLabel(p);
      Text.TrimMembers(p, IsDash);
      assert |Text.Trim(p, IsDash)| <= |p|;
    }
  }

  lemma SingleLabel(s: string)
    requires Label(s)
    ensures Labels(s)
  {
    assert '.' !in s;
  }

  /** Whatever the model is called, even with no usable character in it, the name
    * is a valid DNS-1123 subdomain of at most 253 characters. */
  lemma RouteNameIsValid(model: string, lower: char -> char, digest: string -> string)
    requires IsHexDigest(digest(model))
    ensures Subdomain(RouteName(model, lower, digest))
  {
    if !Subdomain(model + SUFFIX) {
      HashedNameIsValid(Lowered(model, lower), digest(model)[..HASH_LENGTH]);
    }
  }

  lemma HashedNameIsValid(lowered: string, hash: string)
    requires |hash| == HASH_LENGTH && forall i :: 0 <= i < |hash| ==> LabelChar(hash[i])
    ensures Subdomain(Truncated(Base(lowered)) + "-" + hash + SUFFIX)
  {
    var b := Base(lowered);
    BaseIsLabel(lowered);
    TruncatedIsLabel(b);
    JoinedIsLabel(Truncated(b), hash);
    SingleLabel(Truncated(b) + "-" + hash + SUFFIX);
  }

  lemma JoinedIsLabel(b: string, hash: string)
    requires Label(b) && |hash| == HASH_LENGTH
    requires forall i :: 0 <= i < |hash| ==> LabelChar(hash[i])
    ensures Label(b + "-" + hash + SUFFIX)
    ensures |b + "-" + hash + SUFFIX| == |b| + 1 + HASH_LENGTH + |SUFFIX|
  {
    var s := b + "-" + hash + SUFFIX;
    assert s[0] == b[0] && s[|s| - 1] == 'r';
    forall i | 0 <= i < |s| ensures LabelChar(s[i]) {
      var k := i - |b| - 1 - |hash|;
      if k >= 0 { assert s[i] == SUFFIX[k]; SuffixChars(k); }
    }
  }

  lemma SuffixChars(k: nat)
    requires k < |SUFFIX|
    ensures LabelChar(SUFFIX[k])
  {
  }

  /** A route name without its suffix: the model's own name where that is usable. */
  function Stem(model: string, lower: char -> char, digest: string -> string): string
    requires |digest(model)| == 64
  {
    if Subdomain(model + SUFFIX) then model
        else Truncated(Base(Lowered(model, lower))) + "-" + digest(model)[..HASH_LENGTH]
  }

  lemma NameOfStem(model: string, lower: char -> char, digest: string -> string)
    requires |digest(model)| == 64
    ensures RouteName(model, lower, digest) == Stem(model, lower, digest) + SUFFIX
  {
  }

  lemma HashedStems(p: string, q: string, g: string, h: string)
    requires |g| == |h| == HASH_LENGTH
    ensures p + "-" + g == q + "-" + h <==> p == q && g == h
  {
    var s, t := p + "-" + g, q + "-" + h;
    if s == t {
      assert |p| == |q| && s[..|p|] == p && t[..|q|] == q;
      assert s[|p| + 1..] == g && t[|q| + 1..] == h;
    }
  }

  /** Exactly when two models share a route name: both used as they are, they are one
    * model; both hashed, they sanitise alike and their digests agree on the first
    * twelve digits; and one of each, if the one is called what the other hashes to. */
  lemma NamesCollide(a: string, b: string, lower: char -> char, digest: string -> string)
    requires |digest(a)| == 64 && |digest(b)| == 64
    ensures RouteName(a, lower, digest) == RouteName(b, lower, digest) <==>
              match (Subdomain(a + SUFFIX), Subdomain(b + SUFFIX))
              case (true, true) => a == b
              case (true, false) => a == Stem(b, lower, digest)
              case (false, true) => b == Stem(a, lower, digest)
              case (false, false) =>
                && Truncated(Base(Lowered(a, lower))) == Truncated(Base(Lowered(b, lower)))
                && digest(a)[..HASH_LENGTH] == digest(b)[..HASH_LENGTH]
  {
    var s, t := Stem(a, lower, digest), Stem(b, lower, digest);
    NameOfStem(a, lower, digest);
    NameOfStem(b, lower, digest);
    if s + SUFFIX == t + SUFFIX { assert s == (s + SUFFIX)[..|s|] && t == (t + SUFFIX)[..|t|]; }
    HashedStems(Truncated(Base(Lowered(a, lower))), Truncated(Base(Lowered(b, lower))),
                digest(a)[..HASH_LENGTH], digest(b)[..HASH_LENGTH]);
  }

  /** The mixed case is real: whatever is hashed shares its route name with the model
    * that bears the hashed name. */
  lemma HashedNameIsTaken(model: string, other: string, lower: char -> char, digest: string -> string)
    requires IsHexDigest(digest(model)) && IsHexDigest(digest(other))
    requires !Subdomain(model + SUFFIX) && other == Stem(model, lower, digest)
    ensures other != model && RouteName(other, lower, digest) == RouteName(model, lower, digest)
  {
    RouteNameIsValid(model, lower, digest);
    NameOfStem(model, lower, digest);
  }

  // ---------------------------------------------------------- what it is made of

  lemma {:induction false} KeepAlnumConcat(a: string, b: string)
    ensures KeepAlnum(a + b) == KeepAlnum(a) + KeepAlnum(b)
  {
    if b == "" {
      assert a + b == a;
    } else {
      var ab := a + b;
      KeepAlnumConcat(a, b[..|b| - 1]);
      assert ab[..|ab| - 1] == a + b[..|b| - 1] && ab[|ab| - 1] == b[|b| - 1];
    }
  }

  lemma {:induction false} DashesKeepNothing(s: string)
    requires forall i :: 0 <= i < |s| ==> s[i] == '-'
    ensures KeepAlnum(s) == ""
  {
    if s == "" {
    } else {
      DashesKeepNothing(s[..|s| - 1]);
    }
  }

  lemma TrimLeftKeepsAlnum(s: string)
    ensures KeepAlnum(Text.TrimLeft(s, IsDash)) == KeepAlnum(s)
  {
    var n := |s| - |Text.TrimLeft(s, IsDash)|;
    assert s == s[..n] + s[n..];
    KeepAlnumConcat(s[..n], s[n..]);
    DashesKeepNothing(s[..n]);
  }

  lemma TrimRightKeepsAlnum(s: string)
    ensures KeepAlnum(Text.TrimRight(s, IsDash)) == KeepAlnum(s)
  {
    var n := |Text.TrimRight(s, IsDash)|;
    assert s == s[..n] + s[n..];
    KeepAlnumConcat(s[..n], s[n..]);
    DashesKeepNothing(s[n..]);
  }

  lemma TrimKeepsAlnum(s: string)
    ensures KeepAlnum(Text.Trim(s, IsDash)) == KeepAlnum(s)
  {
    TrimLeftKeepsAlnum(s);
    TrimRightKeepsAlnum(Text.TrimLeft(s, IsDash));
  }

  lemma KeptIsSome(s: string)
    requires Label(s)
    ensures KeepAlnum(s) != ""
  {
    assert s == s[..|s| - 1] + [s[|s| - 1]];
  }

  /** The readable part of a hashed name has the usable characters of the lowered model
    * name, all of them and in order, or is "model" if there are none. */
  lemma BaseMeans(lowered: string)
    ensures if KeepAlnum(lowered) == "" then Base(lowered) == "model"
            else KeepAlnum(Base(lowered)) == KeepAlnum(lowered)
  {
    var b := Text.Trim(Sanitized(lowered), IsDash);
    SanitizedContents(lowered);
    TrimKeepsAlnum(Sanitized(lowered));
    TrimmedLabel(Sanitized(lowered));
    if b != "" { KeptIsSome(b); }
  }

  /** What is left of the first 233 characters without the dashes at their end. */
  predicate IsCut(part: string, base: string) {
    && part <= base && |part| <= 233 && (part == "" || part[|part| - 1] != '-')
    && forall i :: |part| <= i < 233 && i < |base| ==> base[i] == '-'
  }

  /** The name is what the gateway looks up: the model's own name with "-router" where
    * that is a valid subdomain; otherwise the readable part, cut if it is over 233
    * characters long, the first twelve digits of the model's digest, "-router". */
  lemma RouteNameMeans(model: string, lower: char -> char, digest: string -> string) returns (part: string)
    requires IsHexDigest(digest(model))
    ensures var base := Base(Lowered(model, lower)); if |base| <= 233 then part == base else IsCut(part, base)
    ensures RouteName(model, lower, digest)
         == if Subdomain(model + "-router") then model + "-router" else part + "-" + digest(model)[..12] + "-router"
  {
    var base := Base(Lowered(model, lower));
    part := Truncated(base);
    BaseIsLabel(Lowered(model, lower));
    if |base| > MAX_BASE { CutMeans(base); }
  }

  lemma DashesCut(p: string)
    ensures var t := Text.TrimRight(p, IsDash);
            && t <= p && (t == "" || t[|t| - 1] != '-') && forall i :: |t| <= i < |p| ==> p[i] == '-'
  {
    var t := Text.TrimRight(p, IsDash);
    assert p[..|t|] == t;
    forall i | |t| <= i < |p| ensures p[i] == '-' { assert IsDash(p[i]); }
  }

  lemma TrimmedEnd(p: string)
    requires p != "" && p[0] != '-'
    ensures Text.Trim(p, IsDash) == Text.TrimRight(p, IsDash)
  {
    assert !IsDash(p[0]);
  }

  lemma CutMeans(b: string)
    requires Label(b) && |b| > MAX_BASE
    ensures IsCut(Truncated(b), b)
  {
    TrimmedEnd(b[..MAX_BASE]);
    DashesCut(b[..MAX_BASE]);
  }

  // ------------------------------------------------------ what a subdomain is

  predicate LowerOrDigit(c: char) { 'a' <= c <= 'z' || '0' <= c <= '9' }

  /** At an end, or next to a dot. */
  predicate Edge(s: string, i: nat)
    requires i < |s|
  {
    i == 0 || i == |s| - 1 || s[i - 1] == '.' || s[i + 1] == '.'
  }

  predicate SpeltAt(s: string, i: nat)
    requires i < |s|
  {
    LowerOrDigit(s[i]) || (!Edge(s, i) && (s[i] == '-' || s[i] == '.'))
  }

  /** Lower-case letters, digits, dashes and dots, the last two only between others, and
    * no two dots, or dash and dot, side by side. */
  predicate Spelt(s: string) { s != "" && forall i :: 0 <= i < |s| ==> SpeltAt(s, i) }

  lemma LabelMeans(s: string)
    requires '.' !in s
    ensures Label(s) <==> Spelt(s)
  {
    if Spelt(s) {
      assert SpeltAt(s, 0) && SpeltAt(s, |s| - 1);
      forall i | 0 <= i < |s| ensures LabelChar(s[i]) { assert SpeltAt(s, i); }
    }
  }

  lemma SpeltApart(a: string, b: string, i: nat)
    requires '.' !in a && i < |a + "." + b|
    ensures var s := a + "." + b;
            SpeltAt(s, i) <==> if i < |a| then SpeltAt(a, i)
                               else if i == |a| then a != "" && b != "" && b[0] != '.'
                               else SpeltAt(b, i - |a| - 1)
  {
    assert !LowerOrDigit('.');
  }

  lemma SpeltParts(a: string, b: string)
    requires '.' !in a
    ensures Spelt(a + "." + b) <==> Spelt(a) && Spelt(b)
  {
    var s := a + "." + b;
    forall i: nat | i < |s| ensures SpeltAt(s, i) <==> if i < |a| then SpeltAt(a, i)
                                                  else if i == |a| then a != "" && b != "" && b[0] != '.'
                                                  else SpeltAt(b, i - |a| - 1)
    {
      SpeltApart(a, b, i);
    }
    if Spelt(s) {
      assert SpeltAt(s, |a|);
      forall i: nat | i < |b| ensures SpeltAt(b, i) { assert SpeltAt(s, i + |a| + 1); }
    }
    if Spelt(a) && Spelt(b) { assert SpeltAt(b, 0) && !LowerOrDigit('.'); }
  }

  /** The labels between the dots are each well-formed exactly when the whole is spelt so. */
  lemma {:induction false} LabelsMean(s: string)
    ensures Labels(s) <==> Spelt(s)
    decreases |s|
  {
    var dot := Text.Index(s, '.');
    if dot < 0 {
      LabelMeans(s);
    } else {
      LabelMeans(s[..dot]);
      LabelsMean(s[dot + 1..]);
      SpeltParts(s[..dot], s[dot + 1..]);
      assert s == s[..dot] + "." + s[dot + 1..];
    }
  }

  /** A name Kubernetes accepts: at most 253 characters, spelt so. */
  lemma SubdomainMeans(s: string)
    ensures Subdomain(s) <==> |s| <= 253 && Spelt(s)
  {
    LabelsMean(s);
  }
}
