/**
 * API keys for the OpenAI-compatible endpoints: generation from random bytes,
 * the format check, extraction of a `Bearer` credential from an
 * `Authorization` header (the header form of section 2.1 of RFC 6750), and
 * masking for display.
 */
module ApiKey {
  import opened Wrappers
  import opened Text
  import opened Types

  newtype byte = x: int | 0 <= x < 256

  const KeyPrefix: string := "my-chat-ui_sk-"

  predicate IsLowerHex(c: char) {
    ('0' <= c <= '9') || ('a' <= c <= 'f')
  }

  /** The lower-case hex digit of a value below 16. */
  function HexDigit(v: nat): (c: char)
    requires v < 16
    ensures IsLowerHex(c)
  {
    if v < 10 then ('0' as int + v) as char else ('a' as int + v - 10) as char
  }

  /** The value of one lower-case hex digit. */
  function DigitValue(c: char): (v: nat)
    requires IsLowerHex(c)
    ensures v < 16 && HexDigit(v) == c
  {
    if c <= '9' then c as int - '0' as int else c as int - 'a' as int + 10
  }

  /** `Buffer.toString('hex')`: two lower-case digits per byte, high nibble first. */
  function Hex(bytes: seq<byte>): (r: string)
    ensures |r| == 2 * |bytes|
    ensures forall k :: 0 <= k < |r| ==> IsLowerHex(r[k])
  {
    if bytes == [] then []
    else [HexDigit(bytes[0] as int / 16), HexDigit(bytes[0] as int % 16)] + Hex(bytes[1..])
  }

  /** Reading hex text back into bytes. */
  function Unhex(s: string): (r: seq<byte>)
    requires |s| % 2 == 0 && forall k :: 0 <= k < |s| ==> IsLowerHex(s[k])
    ensures |r| == |s| / 2
  {
    if s == [] then []
    else [(16 * DigitValue(s[0]) + DigitValue(s[1])) as byte] + Unhex(s[2..])
  }

  /** Hex encoding loses nothing: decoding gives the bytes back. */
  lemma {:induction false} UnhexHex(bytes: seq<byte>)
    ensures Unhex(Hex(bytes)) == bytes
  {
    if bytes != [] {
      var h := Hex(bytes);
      var b := bytes[0] as int;
      assert h[2..] == Hex(bytes[1..]);
      assert DigitValue(h[0]) == b / 16 && DigitValue(h[1]) == b % 16;
      UnhexHex(bytes[1..]);
      assert Unhex(h) == [(16 * (b / 16) + b % 16) as byte] + bytes[1..];
    }
  }

  /** Every string of lower-case hex digits of even length is the encoding of some bytes. */
  lemma {:induction false} HexUnhex(s: string)
    requires |s| % 2 == 0 && forall k :: 0 <= k < |s| ==> IsLowerHex(s[k])
    ensures Hex(Unhex(s)) == s
  {
    if s != [] {
      HexUnhex(s[2..]);
      var u := Unhex(s);
      var hi, lo := DigitValue(s[0]), DigitValue(s[1]);
      assert u[0] as int == 16 * hi + lo;
      assert u[0] as int / 16 == hi && u[0] as int % 16 == lo;
      assert u[1..] == Unhex(s[2..]);
      assert s == [s[0], s[1]] + s[2..];
    }
  }

  /** `generateApiKey`, with the random bytes as a parameter. */
  function GenerateApiKey(random: seq<byte>): string {
    KeyPrefix + Hex(random)
  }

  /** `isValidApiKeyFormat`: the prefix followed by exactly 32 lower-case hex digits. */
  predicate IsValidApiKeyFormat(key: string) {
    && |key| == |KeyPrefix| + 32
    && key[..|KeyPrefix|] == KeyPrefix
    && forall k :: |KeyPrefix| <= k < |key| ==> IsLowerHex(key[k])
  }

  /** The 16 bytes a well-formed key encodes. */
  function KeyBytes(key: string): (r: seq<byte>)
    requires IsValidApiKeyFormat(key)
    ensures |r| == 16
  {
    Unhex(key[|KeyPrefix|..])
  }

  /** A valid key is 46 characters long. */
  lemma ValidKeyLength(key: string)
    requires IsValidApiKeyFormat(key)
    ensures |key| == 46
  {
  }

  /** A generated key passes the format check exactly when it was made from 16 bytes. */
  lemma GeneratedKeyIsValid(random: seq<byte>)
    ensures IsValidApiKeyFormat(GenerateApiKey(random)) <==> |random| == 16
  {
    var key := GenerateApiKey(random);
    assert key[..|KeyPrefix|] == KeyPrefix;
    assert forall k :: |KeyPrefix| <= k < |key| ==> key[k] == Hex(random)[k - |KeyPrefix|];
  }

  /** Every well-formed key is the key generated from the bytes it encodes. */
  lemma ValidKeyIsGenerated(key: string)
    requires IsValidApiKeyFormat(key)
    ensures GenerateApiKey(KeyBytes(key)) == key
  {
    var digits := key[|KeyPrefix|..];
    assert forall k :: 0 <= k < |digits| ==> digits[k] == key[k + |KeyPrefix|];
    HexUnhex(digits);
    assert key == key[..|KeyPrefix|] + digits;
  }

  /** Different random bytes give different keys. */
  lemma GenerateInjective(a: seq<byte>, b: seq<byte>)
    requires GenerateApiKey(a) == GenerateApiKey(b)
    ensures a == b
  {
    var ka := GenerateApiKey(a);
    assert Hex(a) == ka[|KeyPrefix|..] == Hex(b);
    UnhexHex(a);
    UnhexHex(b);
  }

  // ---------------------------------------------------------------------------
  // Bearer credentials

  const Scheme: string := "bearer"

  /**
   * `header` has the shape `/^Bearer\s+(.+)$/i` with `token` as the group: the
   * scheme in any ASCII case, whitespace, then a non-empty token without line
   * terminators that runs to the end.
   */
  predicate BearerForm(header: string, token: string) {
    MatchesAtCI(header, 0, Scheme) && SpacedToken(header[|Scheme|..], token)
  }

  /** `rest` is whitespace (at least one character) followed by `token`, which has no line terminator. */
  predicate SpacedToken(rest: string, token: string) {
    && 0 < |token| < |rest|
    && AllSpace(rest[..|rest| - |token|])
    && rest[|rest| - |token|..] == token
    && NoLineTerminator(token)
  }

  /**
   * The group `\s+(.+)$` captures in what follows the scheme. The greedy
   * `\s+` takes the whole whitespace run when something follows it; when the
   * rest is all whitespace it backs off by one character, which then becomes
   * the token.
   */
  function TokenAfterScheme(rest: string): Option<string> {
    var tail := TrimStart(rest);
    var n := |rest| - |tail|;
    if n == 0 then None
    else if tail != [] then (if NoLineTerminator(tail) then Some(tail) else None)
    else if n >= 2 && !IsLineTerminator(rest[n - 1]) then Some(rest[n - 1..])
    else None
  }

  /** `extractBearerToken`. */
  function ExtractBearerToken(authorization: Option<string>): Option<string> {
    if !Truthy(authorization) then None
    else if !MatchesAtCI(authorization.value, 0, Scheme) then None
    else TokenAfterScheme(authorization.value[|Scheme|..])
  }

  /** What is captured is a token of the form. */
  lemma CapturedIsSpacedToken(rest: string)
    requires TokenAfterScheme(rest).Some?
    ensures SpacedToken(rest, TokenAfterScheme(rest).value)
  {
    var tail := TrimStart(rest);
    var n := |rest| - |tail|;
    if tail == [] {
      var t := rest[n - 1..];
      assert AllSpace(rest[..n - 1]) by {
        forall k | 0 <= k < n - 1 ensures IsSpace(rest[k]) {
          assert rest[k] == rest[..n][k];
        }
      }
      assert t == [rest[n - 1]];
    }
  }

  /** Every token of the form is captured or is longer than what is captured. */
  lemma SpacedTokenCaptured(rest: string, t: string)
    requires SpacedToken(rest, t)
    ensures var r := TokenAfterScheme(rest); r.Some? && |r.value| <= |t|
  {
    var tail := TrimStart(rest);
    var n := |rest| - |tail|;
    var p := |rest| - |t|;
    assert forall k :: 0 <= k < p ==> IsSpace(rest[..p][k]);
    assert IsSpace(rest[0]) by { assert rest[0] == rest[..p][0]; }
    if tail != [] {
      assert !IsSpace(rest[n]) by { assert rest[n] == tail[0]; }
      assert NoLineTerminator(tail) by {
        forall k | 0 <= k < |tail| ensures !IsLineTerminator(tail[k]) {
          assert tail[k] == rest[n + k] == t[k + n - p];
        }
      }
    } else {
      assert rest[n - 1] == t[|t| - 1];
    }
  }

  /**
   * The extracted token is a token of the header's `Bearer` form, there is
   * one exactly when something is extracted, and it is the shortest one (the
   * whitespace run is taken greedily).
   */
  lemma ExtractBearerTokenCorrect(authorization: Option<string>)
    ensures var r := ExtractBearerToken(authorization);
      && (!Truthy(authorization) ==> r.None?)
      && (r.Some? ==> BearerForm(authorization.value, r.value))
      && (Truthy(authorization) && r.None? ==> forall t :: !BearerForm(authorization.value, t))
      && (r.Some? ==> forall t :: BearerForm(authorization.value, t) ==> |r.value| <= |t|)
  {
    if Truthy(authorization) && MatchesAtCI(authorization.value, 0, Scheme) {
      var rest := authorization.value[|Scheme|..];
      if TokenAfterScheme(rest).Some? {
        CapturedIsSpacedToken(rest);
      }
      forall t | BearerForm(authorization.value, t)
        ensures TokenAfterScheme(rest).Some? && |TokenAfterScheme(rest).value| <= |t|
      {
        SpacedTokenCaptured(rest, t);
      }
    }
  }

  /** A header `Bearer <token>` with a token that starts with no whitespace yields exactly that token. */
  lemma BearerTokenExtracted(token: string)
    requires token != [] && !IsSpace(token[0]) && NoLineTerminator(token)
    ensures ExtractBearerToken(Some("Bearer " + token)) == Some(token)
  {
    var s := "Bearer " + token;
    SchemeOfBearer(token);
    assert s[|Scheme|..] == [' '] + token;
    TrimStartCons(' ', token);
    TrimStartNoLead(token);
  }

  lemma SchemeOfBearer(token: string)
    ensures MatchesAtCI("Bearer " + token, 0, Scheme)
  {
    var s := "Bearer " + token;
    forall k | 0 <= k < |Scheme| ensures Lower(s[k]) == Scheme[k] {
      assert s[k] == "Bearer "[k];
    }
  }

  // ---------------------------------------------------------------------------
  // Masking

  function Stars(n: nat): (r: string)
    ensures |r| == n && forall k :: 0 <= k < n ==> r[k] == '*'
  {
    if n == 0 then [] else ['*'] + Stars(n - 1)
  }

  /** `maskApiKey`: short keys become `***`; others keep 8 characters in front and 4 behind. */
  function MaskApiKey(key: string): (r: string)
    ensures |key| < 12 ==> r == "***"
    ensures |key| >= 12 ==> |r| == |key| && r[..8] == key[..8] && r[|r| - 4..] == key[|key| - 4..]
    ensures |key| >= 12 ==> forall k :: 8 <= k < |key| - 4 ==> r[k] == '*'
  {
    if |key| < 12 then "***"
    else
      var r := key[..8] + Stars(|key| - 12) + key[|key| - 4..];
      assert r[..8] == key[..8];
      assert r[|r| - 4..] == key[|key| - 4..];
      r
  }

  /** Masking a masked key changes nothing. */
  lemma MaskIdempotent(key: string)
    ensures MaskApiKey(MaskApiKey(key)) == MaskApiKey(key)
  {
    var m := MaskApiKey(key);
    if |key| >= 12 {
      var mm := MaskApiKey(m);
      assert forall k :: 0 <= k < |m| ==> mm[k] == m[k] by {
        forall k | 0 <= k < |m| ensures mm[k] == m[k] {
          if k < 8 {
            assert mm[..8][k] == m[..8][k];
          } else if k >= |m| - 4 {
            assert mm[|m| - 4..][k - (|m| - 4)] == m[|m| - 4..][k - (|m| - 4)];
          }
        }
      }
    }
  }

  /** The masked form of a valid key is never itself accepted as a key. */
  lemma MaskedKeyIsNotValid(key: string)
    requires IsValidApiKeyFormat(key)
    ensures !IsValidApiKeyFormat(MaskApiKey(key))
  {
    var m := MaskApiKey(key);
    assert m[14] == '*';
  }
}
