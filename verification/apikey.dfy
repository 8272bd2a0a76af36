/** services/auth: API keys drawn by rejection sampling, and their digests. */
module ApiKey {
  import opened Prelude

  type Byte = n: nat | n < 256

  const SCHEME := "sk-"
  const SECRET_LENGTH: nat := 43
  const NUMERALS := "0123456789"
  const UPPER := "ABCDEFGHIJKLMNOPQRSTUVWXYZ"
  const LOWER := "abcdefghijklmnopqrstuvwxyz"
  const ALPHABET := NUMERALS + UPPER + LOWER

  datatype KeyError = RandomSourceFailed

  /** Bytes from 248 up would make the low symbols more likely; they are redrawn. */
  predicate Accepts(b: Byte) { b < 62 * 4 }

  function Symbol(b: Byte): char { ALPHABET[b % 62] }

  /** The accepted bytes of a stream, in order. */
  function Accepted(stream: seq<Byte>): (r: seq<Byte>)
    ensures forall i :: 0 <= i < |r| ==> Accepts(r[i])
  {
    if stream == [] then []
    else
      var front := Accepted(stream[..|stream| - 1]);
      var last := stream[|stream| - 1];
      if Accepts(last) then front + [last] else front
  }

  function Image(bytes: seq<Byte>): string {
    seq(|bytes|, i requires 0 <= i < |bytes| => Symbol(bytes[i]))
  }

  lemma {:induction false} AcceptedConcat(a: seq<Byte>, b: seq<Byte>)
    ensures Accepted(a + b) == Accepted(a) + Accepted(b)
  {
    if b == [] {
      assert a + b == a;
    } else {
      var ab := a + b;
      AcceptedConcat(a, b[..|b| - 1]);
      assert ab[..|ab| - 1] == a + b[..|b| - 1] && ab[|ab| - 1] == b[|b| - 1];
    }
  }

  /** GenerateAPIKey over the bytes the random source will yield; the source fails
    * where the stream ends. The secret is the image of the first accepted bytes. */
  method GenerateAPIKey(stream: seq<Byte>) returns (r: Result<string, KeyError>)
    ensures r == if |Accepted(stream)| >= SECRET_LENGTH
                 then Ok(SCHEME + Image(Accepted(stream)[..SECRET_LENGTH]))
                 else Err(RandomSourceFailed)
    ensures r.Ok? ==> |r.value| == 46 && r.value[..3] == "sk-" && forall i :: 3 <= i < 46 ==> r.value[i] in ALPHABET
  {
    var buf := new char[SECRET_LENGTH];
    var drawn := 0;
    for i := 0 to SECRET_LENGTH
      invariant drawn <= |stream|
      invariant |Accepted(stream[..drawn])| == i
      invariant buf[..i] == Image(Accepted(stream[..drawn]))
    {
      var done := false;
      while !done
        invariant drawn <= |stream|
        invariant |Accepted(stream[..drawn])| == if done then i + 1 else i
        invariant buf[..if done then i + 1 else i] == Image(Accepted(stream[..drawn]))
        decreases |stream| - drawn
      {
        if drawn == |stream| {
          assert stream[..drawn] == stream;
          return Err(RandomSourceFailed);
        }
        var b := stream[drawn];
        assert stream[..drawn + 1][..drawn] == stream[..drawn];
        drawn := drawn + 1;
        if b < 62 * 4 {
          buf[i] := ALPHABET[b % 62];
          assert buf[..i + 1] == buf[..i] + [buf[i]];
          done := true;
        }
      }
    }
    AcceptedConcat(stream[..drawn], stream[drawn..]);
    assert stream == stream[..drawn] + stream[drawn..];
    assert Accepted(stream)[..SECRET_LENGTH] == Accepted(stream[..drawn]);
    assert buf[..] == buf[..SECRET_LENGTH];
    return Ok(SCHEME + buf[..]);
  }

  // ------------------------------------------------------------- uniformity

  lemma AlphabetAscends(i: nat, j: nat)
    requires i < j < 62
    ensures ALPHABET[i] < ALPHABET[j]
  {
    AlphabetAt(i);
    AlphabetAt(j);
  }

  lemma AlphabetAt(k: nat)
    requires k < 62
    ensures ALPHABET[k] as int == if k < 10 then 48 + k else if k < 36 then 55 + k else 61 + k
  {
    if k < 10 {
      assert ALPHABET[k] == NUMERALS[k];
    } else if k < 36 {
      assert ALPHABET[k] == UPPER[k - 10];
    } else {
      assert ALPHABET[k] == LOWER[k - 36];
    }
  }

  function Preimages(c: char): set<Byte> {
    set b: Byte | 0 <= b < 256 && Accepts(b) && Symbol(b) == c
  }

  lemma SymbolPosition(b: Byte, k: nat)
    requires k < 62
    ensures Symbol(b) == ALPHABET[k] <==> b % 62 == k
  {
    if b % 62 < k { AlphabetAscends(b % 62, k); }
    if b % 62 > k { AlphabetAscends(k, b % 62); }
  }

  lemma ResidueClass(b: Byte, k: nat)
    requires k < 62
    ensures Accepts(b) && b % 62 == k <==> b == k || b == k + 62 || b == k + 124 || b == k + 186
  {
  }

  /** Every symbol has exactly four accepted bytes. */
  lemma FourPreimages(k: nat)
    requires k < 62
    ensures Preimages(ALPHABET[k]) == {k, k + 62, k + 124, k + 186}
    ensures |Preimages(ALPHABET[k])| == 4
  {
    forall b: Byte ensures b in Preimages(ALPHABET[k]) <==> b == k || b == k + 62 || b == k + 124 || b == k + 186 {
      SymbolPosition(b, k);
      ResidueClass(b, k);
    }
    var two: set<Byte> := {k, k + 62};
    var four: set<Byte> := two + {k + 124, k + 186};
    assert |two| == 2;
    assert Preimages(ALPHABET[k]) == four;
  }

  predicate InAlphabet(c: char) { c in ALPHABET }

  predicate OverAlphabet(secret: string) {
    forall i :: 0 <= i < |secret| ==> InAlphabet(secret[i])
  }

  lemma FourPreimagesOf(c: char)
    requires InAlphabet(c)
    ensures |Preimages(c)| == 4
  {
    var k :| 0 <= k < |ALPHABET| && ALPHABET[k] == c;
    FourPreimages(k);
  }

  /** All accepted byte strings whose image is the secret. */
  ghost function Sources(secret: string): set<seq<Byte>> {
    if secret == "" then {[]} else Extend(Preimages(secret[0]), Sources(secret[1..]))
  }

  ghost function Extend(heads: set<Byte>, tails: set<seq<Byte>>): set<seq<Byte>> {
    set b, t | b in heads && t in tails :: [b] + t
  }

  predicate AllAccepted(bytes: seq<Byte>) {
    forall i :: 0 <= i < |bytes| ==> Accepts(bytes[i])
  }

  lemma ImageOfCons(b: Byte, t: seq<Byte>)
    ensures Image([b] + t) == [Symbol(b)] + Image(t)
    ensures AllAccepted([b] + t) <==> Accepts(b) && AllAccepted(t)
  {
    var bytes := [b] + t;
    assert bytes[0] == b;
    assert forall i :: 0 <= i < |t| ==> t[i] == bytes[i + 1];
    assert forall i :: 0 < i < |bytes| ==> bytes[i] == t[i - 1];
  }

  lemma ExtendMember(heads: set<Byte>, tails: set<seq<Byte>>, b: Byte, t: seq<Byte>)
    ensures [b] + t in Extend(heads, tails) <==> b in heads && t in tails
  {
    forall c: Byte, u | [c] + u == [b] + t ensures c == b && u == t {
      assert ([c] + u)[0] == c && ([c] + u)[1..] == u;
      assert ([b] + t)[0] == b && ([b] + t)[1..] == t;
    }
  }

  lemma {:induction false} SourcesAreAll(secret: string, bytes: seq<Byte>)
    ensures bytes in Sources(secret) <==> AllAccepted(bytes) && Image(bytes) == secret
  {
    assert |Image(bytes)| == |bytes|;
    if secret != "" && bytes != [] {
      var b, t := bytes[0], bytes[1..];
      assert bytes == [b] + t;
      SourcesAreAll(secret[1..], t);
      ExtendMember(Preimages(secret[0]), Sources(secret[1..]), b, t);
      ImageOfCons(b, t);
      assert Image(bytes) == secret <==> Symbol(b) == secret[0] && Image(t) == secret[1..] by {
        assert secret == [secret[0]] + secret[1..];
        assert Image(bytes)[0] == Symbol(b) && Image(bytes)[1..] == Image(t);
      }
    }
  }

  lemma ExtendSplitHeads(b: Byte, heads: set<Byte>, tails: set<seq<Byte>>)
    requires b in heads
    ensures Extend(heads, tails) == Extend(heads - {b}, tails) + Extend({b}, tails)
    ensures Extend(heads - {b}, tails) !! Extend({b}, tails)
  {
    forall s | s in Extend(heads - {b}, tails) ensures s[0] != b {}
    forall s | s in Extend({b}, tails) ensures s[0] == b {}
    forall s | s in Extend(heads, tails) ensures s in Extend(heads - {b}, tails) + Extend({b}, tails) {
      var c, t :| c in heads && t in tails && s == [c] + t;
    }
  }

  lemma ExtendSplitTails(b: Byte, t: seq<Byte>, tails: set<seq<Byte>>)
    requires t in tails
    ensures Extend({b}, tails) == Extend({b}, tails - {t}) + {[b] + t}
    ensures [b] + t !in Extend({b}, tails - {t})
  {
    forall u | u in tails - {t} ensures [b] + u != [b] + t {
      assert ([b] + u)[1..] == u && ([b] + t)[1..] == t;
    }
    forall s | s in Extend({b}, tails) ensures s in Extend({b}, tails - {t}) + {[b] + t} {
      var u :| u in tails && s == [b] + u;
      if u != t { assert u in tails - {t}; }
    }
  }

  lemma {:induction false} PrependSize(b: Byte, tails: set<seq<Byte>>)
    ensures |Extend({b}, tails)| == |tails|
  {
    if tails != {} {
      var t :| t in tails;
      PrependSize(b, tails - {t});
      ExtendSplitTails(b, t, tails);
    }
  }

  lemma {:induction false} ExtendSize(heads: set<Byte>, tails: set<seq<Byte>>)
    ensures |Extend(heads, tails)| == |heads| * |tails|
  {
    if heads != {} {
      var b :| b in heads;
      ExtendSize(heads - {b}, tails);
      PrependSize(b, tails);
      ExtendSplitHeads(b, heads, tails);
      assert |heads| == |heads - {b}| + 1;
      assert (|heads - {b}| + 1) * |tails| == |heads - {b}| * |tails| + |tails|;
    } else {
      assert Extend(heads, tails) == {};
    }
  }

  lemma FourTimes(secret: string)
    requires secret != "" && InAlphabet(secret[0])
    ensures |Sources(secret)| == 4 * |Sources(secret[1..])|
  {
    FourPreimagesOf(secret[0]);
    ExtendSize(Preimages(secret[0]), Sources(secret[1..]));
  }

  function Power4(n: nat): nat {
    if n == 0 then 1 else 4 * Power4(n - 1)
  }

  /** The sampling is unbiased: of the accepted byte strings of length n, every
    * secret of length n is the image of exactly 4^n. */
  lemma {:induction false} Unbiased(secret: string)
    requires OverAlphabet(secret)
    ensures |Sources(secret)| == Power4(|secret|)
  {
    if secret == "" {
    } else {
      FourTimes(secret);
      Unbiased(secret[1..]);
    }
  }

  /** IsValidDigest. */
  method IsValidDigest(digest: string) returns (valid: bool)
    ensures valid <==> |digest| == 64 && forall i :: 0 <= i < |digest| ==> digest[i] in "0123456789abcdef"
  {
    if |digest| != 64 { return false; }
    for i := 0 to |digest|
      invariant forall j :: 0 <= j < i ==> digest[j] in "0123456789abcdef"
    {
      var c := digest[i];
      assert c in "0123456789abcdef" <==> '0' <= c <= '9' || 'a' <= c <= 'f';
      if (c < '0' || c > '9') && (c < 'a' || c > 'f') { return false; }
    }
    return true;
  }
}
