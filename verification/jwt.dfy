/** The token check of `lib/utils.ts`: a JSON Web Token (RFC 7519) is split at its dots,
    the HS256 MAC (section 3.2 of RFC 7518) of the first two segments is computed, and
    its base64 text is rewritten to the unpadded base64url alphabet (section 5 of
    RFC 4648, as section 2 of RFC 7515 uses it) and compared with the third segment. The
    claims are never decoded or checked.

    The MAC and the standard base64 encoding are not modelled: they are the parameter
    `digest`, from a secret and a message to the base64 text of the MAC, `None` when the
    computation throws. */
module Jwt {
  import opened Common
  import opened Text

  /** The fallback secret used when the environment provides none. */
  const DefaultSecret := "parikshaSecretKey@12"

  /** The message of a rejection. */
  const InvalidSignature := "Invalid token signature"

  /** What `verifyToken` returns when it rejects: `{ valid: false, error }`. */
  datatype Rejection = Rejection(valid: bool, error: string)

  /** The characters of the standard base64 alphabet, padding excluded. */
  predicate IsBase64Char(c: char) {
    ('A' <= c <= 'Z') || ('a' <= c <= 'z') || ('0' <= c <= '9') || c == '+' || c == '/'
  }

  /** One character of the rewrite: '+' and '/' become '-' and '_'. */
  function UrlChar(c: char): char {
    if c == '+' then '-' else if c == '/' then '_' else c
  }

  /** The chain `.replace(/\+/g, '-').replace(/\//g, '_').replace(/=/g, '')`. */
  function Base64Url(s: string): (r: string)
    ensures |r| <= |s|
    ensures '+' !in r && '/' !in r && '=' !in r
    ensures forall i :: 0 <= i < |r| ==> r[i] == '-' || r[i] == '_' || r[i] in s
  {
    if |s| == 0 then ""
    else (if s[0] == '=' then "" else [UrlChar(s[0])]) + Base64Url(s[1..])
  }

  /** Without padding the rewrite works position by position. */
  lemma {:induction false} Base64UrlPositionwise(s: string)
    requires '=' !in s
    ensures |Base64Url(s)| == |s|
    ensures forall i :: 0 <= i < |s| ==> Base64Url(s)[i] == UrlChar(s[i])
    decreases |s|
  {
    if |s| > 0 {
      assert forall c :: c in s[1..] ==> c in s;
      Base64UrlPositionwise(s[1..]);
    }
  }

  /** The rewrite distributes over concatenation. */
  lemma {:induction false} Base64UrlAppend(a: string, b: string)
    ensures Base64Url(a + b) == Base64Url(a) + Base64Url(b)
    decreases |a|
  {
    if |a| > 0 {
      assert (a + b)[1..] == a[1..] + b;
      Base64UrlAppend(a[1..], b);
    } else {
      assert a + b == b;
    }
  }

  /** `n` padding characters. */
  function Padding(n: nat): (r: string)
    ensures |r| == n && forall i :: 0 <= i < n ==> r[i] == '='
  {
    seq(n, _ => '=')
  }

  /** Padding disappears entirely. */
  lemma {:induction false} Base64UrlOfPadding(n: nat)
    ensures Base64Url(Padding(n)) == ""
  {
    if n > 0 {
      assert Padding(n)[1..] == Padding(n - 1);
      Base64UrlOfPadding(n - 1);
    }
  }

  /** One character of the inverse rewrite. */
  function StdChar(c: char): char {
    if c == '-' then '+' else if c == '_' then '/' else c
  }

  /** The inverse rewrite, character by character. */
  function ToStandard(u: string): (s: string)
    ensures |s| == |u| && forall i :: 0 <= i < |u| ==> s[i] == StdChar(u[i])
  {
    seq(|u|, i requires 0 <= i < |u| => StdChar(u[i]))
  }

  /** The inverse rewrite: back to the standard alphabet, padded to a multiple of four. */
  function FromBase64Url(u: string): string {
    ToStandard(u) + Padding(PadFor(|u|))
  }

  /** The number of '=' that brings a length up to a multiple of four. */
  function PadFor(n: nat): nat {
    (4 - n % 4) % 4
  }

  /** The inverse rewrite undoes the rewrite of a padding-free base64 body. */
  lemma UnmapBody(body: string)
    requires forall i :: 0 <= i < |body| ==> IsBase64Char(body[i])
    ensures '=' !in body
    ensures ToStandard(Base64Url(body)) == body
  {
    assert '=' !in body by {
      forall i | 0 <= i < |body| ensures body[i] != '=' {
        assert IsBase64Char(body[i]);
      }
    }
    Base64UrlPositionwise(body);
    var u := Base64Url(body);
    forall i | 0 <= i < |body| ensures StdChar(u[i]) == body[i] {
      assert u[i] == UrlChar(body[i]);
      assert IsBase64Char(body[i]);
    }
  }

  /** The padding the inverse restores is the padding that was removed. */
  lemma PadCount(n: nat, pad: nat)
    requires pad <= 2 && (n + pad) % 4 == 0
    ensures PadFor(n) == pad
  {
    var q := (n + pad) / 4;
    assert n == 4 * q - pad;
    if pad == 0 {
      assert n % 4 == 0;
    } else {
      assert n == 4 * (q - 1) + (4 - pad);
      assert n % 4 == 4 - pad;
    }
  }

  /** Round trip: the base64 text of any byte string (a body of alphabet characters and
      at most two '=' making a multiple of four) is recovered from its rewrite. */
  lemma Base64UrlRoundTrip(body: string, pad: nat)
    requires forall i :: 0 <= i < |body| ==> IsBase64Char(body[i])
    requires pad <= 2 && (|body| + pad) % 4 == 0
    ensures FromBase64Url(Base64Url(body + Padding(pad))) == body + Padding(pad)
  {
    UnmapBody(body);
    PaddingRestored(body, pad);
    PaddingDropped(body, pad);
  }

  /** The inverse adds back exactly the padding the rewrite removed. */
  lemma PaddingRestored(body: string, pad: nat)
    requires forall i :: 0 <= i < |body| ==> IsBase64Char(body[i])
    requires pad <= 2 && (|body| + pad) % 4 == 0
    ensures PadFor(|Base64Url(body)|) == pad
  {
    UnmapBody(body);
    Base64UrlPositionwise(body);
    PadCount(|body|, pad);
  }

  /** Rewriting a padded text gives the rewrite of its body. */
  lemma PaddingDropped(body: string, pad: nat)
    ensures Base64Url(body + Padding(pad)) == Base64Url(body)
  {
    Base64UrlAppend(body, Padding(pad));
    Base64UrlOfPadding(pad);
    assert Base64Url(body) + "" == Base64Url(body);
  }

  /** A segment of the split token as a template literal renders it: a missing one reads
      "undefined". */
  function Segment(parts: seq<string>, i: nat): (r: string)
    ensures i < |parts| ==> r == parts[i]
    ensures i >= |parts| ==> r == "undefined"
  {
    if i < |parts| then parts[i] else "undefined"
  }

  /** The message the MAC is computed over: the first two segments and a dot. */
  function SigningInput(token: string): string {
    var parts := Split(token, '.');
    Segment(parts, 0) + "." + Segment(parts, 1)
  }

  /** The signature the token carries: its third segment, absent when there is none. */
  function CarriedSignature(token: string): Option<string> {
    var parts := Split(token, '.');
    if |parts| >= 3 then Some(parts[2]) else None
  }

  /** `verifySignature`: accepted exactly when the MAC can be computed and its rewritten
      text equals the third segment; an exception counts as a rejection. */
  function VerifySignature(token: string, secret: string, digest: (string, string) -> Option<string>): (ok: bool)
    ensures ok <==> digest(secret, SigningInput(token)).Some? &&
                    CarriedSignature(token) == Some(Base64Url(digest(secret, SigningInput(token)).value))
  {
    match digest(secret, SigningInput(token))
    case None => false
    case Some(d) => CarriedSignature(token) == Some(Base64Url(d))
  }

  /** `process.env.JWT_SECRET || DefaultSecret`: an unset or empty variable falls back. */
  function Secret(env: Option<string>): (r: string)
    ensures env.Some? && env.value != "" ==> r == env.value
    ensures env.None? || env.value == "" ==> r == DefaultSecret
  {
    if env.Some? && env.value != "" then env.value else DefaultSecret
  }

  /** `verifyToken`: a rejection object when the signature fails, nothing otherwise. */
  function VerifyToken(token: string, env: Option<string>, digest: (string, string) -> Option<string>): (r: Option<Rejection>)
    ensures r.None? <==> VerifySignature(token, Secret(env), digest)
    ensures r.Some? ==> r.value == Rejection(false, InvalidSignature)
  {
    if VerifySignature(token, Secret(env), digest) then None
    else Some(Rejection(false, InvalidSignature))
  }

  /** The token of the given segments. */
  function Compose(header: string, payload: string, signature: string): string {
    Join([header, payload, signature], '.')
  }

  /** The segments of a token, three given ones and the rest, are all dot-free. */
  lemma DotFreeSegments(header: string, payload: string, signature: string, rest: seq<string>)
    requires '.' !in header && '.' !in payload && '.' !in signature
    requires forall i :: 0 <= i < |rest| ==> '.' !in rest[i]
    ensures var parts := [header, payload, signature] + rest;
            forall i :: 0 <= i < |parts| ==> '.' !in parts[i]
  {
    var parts := [header, payload, signature] + rest;
    forall i | 0 <= i < |parts| ensures '.' !in parts[i] {
      if i == 0 {
        assert parts[i] == header;
      } else if i == 1 {
        assert parts[i] == payload;
      } else if i == 2 {
        assert parts[i] == signature;
      } else {
        assert parts[i] == rest[i - 3];
      }
    }
  }

  /** Splitting a token made of dot-free segments finds those segments again, and
      anything after the third segment is ignored by both the MAC input and the
      signature. */
  lemma SegmentsOfToken(header: string, payload: string, signature: string, rest: seq<string>)
    requires '.' !in header && '.' !in payload && '.' !in signature
    requires forall i :: 0 <= i < |rest| ==> '.' !in rest[i]
    ensures var token := Join([header, payload, signature] + rest, '.');
            && SigningInput(token) == header + "." + payload
            && CarriedSignature(token) == Some(signature)
  {
    var parts := [header, payload, signature] + rest;
    DotFreeSegments(header, payload, signature, rest);
    SplitJoin(parts, '.');
    var token := Join(parts, '.');
    assert Split(token, '.') == parts;
    assert parts[0] == header && parts[1] == payload && parts[2] == signature;
  }

  /** Round trip: a token signed with the secret, its signature being the rewritten MAC
      of its first two segments, is accepted. */
  lemma SignedTokenAccepted(header: string, payload: string, secret: string,
                            digest: (string, string) -> Option<string>)
    requires '.' !in header && '.' !in payload
    requires digest(secret, header + "." + payload).Some?
    requires '.' !in digest(secret, header + "." + payload).value
    ensures var sig := Base64Url(digest(secret, header + "." + payload).value);
            VerifySignature(Compose(header, payload, sig), secret, digest)
  {
    var d := digest(secret, header + "." + payload).value;
    var sig := Base64Url(d);
    assert '.' !in sig by {
      forall i | 0 <= i < |sig| ensures sig[i] != '.' {
        assert sig[i] == '-' || sig[i] == '_' || sig[i] in d;
      }
    }
    SegmentsOfToken(header, payload, sig, []);
    assert [header, payload, sig] + [] == [header, payload, sig];
  }

  /** A token with fewer than three segments is rejected whatever the MAC. */
  lemma UnsignedTokenRejected(token: string, secret: string, digest: (string, string) -> Option<string>)
    requires |Split(token, '.')| < 3
    ensures !VerifySignature(token, secret, digest)
  {
  }
}
