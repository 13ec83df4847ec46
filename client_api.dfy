/**
 * The browser-side client of the chat server: how a failed request is
 * reported, how a streamed reply is read and handed on chunk by chunk, and
 * the retry helper with its exponential back-off.
 */
module ClientApi {
  import opened Wrappers
  import opened Text
  import opened Types

  /** `response.ok`: a status in the 2xx range. */
  predicate IsOk(status: nat) {
    200 <= status <= 299
  }

  /** `HTTP <status>: <text>`, the message of a request refused by the server. */
  function StatusMessage(status: nat, text: string): string {
    "HTTP " + NatToString(status) + ": " + text
  }

  /**
   * What a failed request reports: the `error.message` of the reply body
   * when it is present and non-empty (`None` stands for a body that is not
   * JSON, has no `error` object, or whose message is not a string), and
   * otherwise the status line.
   */
  function FailureMessage(status: nat, statusText: string, bodyMessage: Option<string>): (r: string)
    ensures Truthy(bodyMessage) ==> r == bodyMessage.value
    ensures !Truthy(bodyMessage) ==> ReportedStatus(r) == Some(status) && ReportedText(r) == statusText
  {
    if Truthy(bodyMessage) then bodyMessage.value
    else
      StatusMessageReadBack(status, statusText);
      StatusMessage(status, statusText)
  }

  /** One reply of the server to `apiRequest`: its status line and its body, read as JSON. */
  datatype Reply<T> = Reply(status: nat, statusText: string, body: Result<T, string>, bodyMessage: Option<string>)

  /**
   * `apiRequest`: the parsed body of a 2xx reply (a body that is not JSON
   * fails with the parser's message), otherwise the failure message.
   */
  function ApiRequest<T>(reply: Reply<T>): (r: Result<T, string>)
    ensures IsOk(reply.status) ==> r == reply.body
    ensures !IsOk(reply.status) ==> r == Err(FailureMessage(reply.status, reply.statusText, reply.bodyMessage))
  {
    if !IsOk(reply.status) then Err(FailureMessage(reply.status, reply.statusText, reply.bodyMessage))
    else reply.body
  }

  // ---------------------------------------------------------------------------
  // Reading the status back out of a message

  predicate AllDigits(s: string) {
    forall k :: 0 <= k < |s| ==> '0' <= s[k] <= '9'
  }

  /** The number a string of decimal digits denotes. */
  function DigitsValue(s: string): nat
    requires AllDigits(s)
  {
    if s == "" then 0 else 10 * DigitsValue(s[..|s| - 1]) + (s[|s| - 1] as int - '0' as int)
  }

  /** The decimal digits of a number read back give the number. */
  lemma {:induction false} DigitsValueOfNatToString(n: nat)
    ensures DigitsValue(NatToString(n)) == n
  {
    var d := ['0' + (n % 10) as char];
    if n >= 10 {
      DigitsValueOfNatToString(n / 10);
      assert (NatToString(n / 10) + d)[..|NatToString(n / 10)|] == NatToString(n / 10);
    }
  }

  /** The index of the first `:` in `s` from `from` on, or `|s|`. */
  function ColonAt(s: string, from: nat): (r: nat)
    requires from <= |s|
    ensures from <= r <= |s| && (r < |s| ==> s[r] == ':')
    ensures forall k :: from <= k < r ==> s[k] != ':'
    decreases |s| - from
  {
    if from == |s| || s[from] == ':' then from else ColonAt(s, from + 1)
  }

  const StatusPrefix: string := "HTTP "

  /** The status a `HTTP <digits>: …` message names, if it has that form. */
  function ReportedStatus(msg: string): Option<nat> {
    if |msg| < |StatusPrefix| || msg[..|StatusPrefix|] != StatusPrefix then None
    else
      var c := ColonAt(msg, |StatusPrefix|);
      var digits := msg[|StatusPrefix|..c];
      if c + 1 < |msg| && msg[c + 1] == ' ' && digits != "" && AllDigits(digits) then Some(DigitsValue(digits)) else None
  }

  /** The text after `HTTP <digits>: `, or the whole message when it does not have that form. */
  function ReportedText(msg: string): string {
    if ReportedStatus(msg).None? then msg
    else msg[ColonAt(msg, |StatusPrefix|) + 2..]
  }

  /** A status message names the status it was built from and ends with the text it was given. */
  lemma StatusMessageReadBack(status: nat, text: string)
    ensures ReportedStatus(StatusMessage(status, text)) == Some(status)
    ensures ReportedText(StatusMessage(status, text)) == text
  {
    var digits := NatToString(status);
    var msg := StatusMessage(status, text);
    assert msg == StatusPrefix + digits + ": " + text;
    var p := |StatusPrefix|;
    assert msg[..p] == StatusPrefix;
    forall k | p <= k < p + |digits| ensures msg[k] != ':' {
      assert msg[k] == digits[k - p];
    }
    assert msg[p + |digits|] == ':';
    assert ColonAt(msg, p) == p + |digits|;
    assert msg[p..p + |digits|] == digits;
    DigitsValueOfNatToString(status);
    assert msg[p + |digits| + 2..] == text;
  }

  // ---------------------------------------------------------------------------
  // Reading a streamed reply

  const NotReadable: string := "Response body is not readable"

  /** The chunks handed to the listener: every decoded chunk that is not empty, in order. */
  function NonEmpty(chunks: seq<string>): seq<string> {
    if chunks == [] then []
    else NonEmpty(chunks[..|chunks| - 1]) + (if chunks[|chunks| - 1] == "" then [] else [chunks[|chunks| - 1]])
  }

  /** Skipping the empty chunks loses no text, and no empty chunk is handed on. */
  lemma {:induction false} NonEmptyKeepsText(chunks: seq<string>)
    ensures Concat(NonEmpty(chunks)) == Concat(chunks)
    ensures forall k :: 0 <= k < |NonEmpty(chunks)| ==> NonEmpty(chunks)[k] != ""
  {
    if chunks != [] {
      var init, last := chunks[..|chunks| - 1], chunks[|chunks| - 1];
      assert chunks == init + [last];
      NonEmptyKeepsText(init);
      ConcatSnoc(init, last);
      if last != "" {
        ConcatSnoc(NonEmpty(init), last);
      } else {
        assert NonEmpty(chunks) == NonEmpty(init) + [] == NonEmpty(init);
        assert Concat(chunks) == Concat(init) + "";
      }
    }
  }

  /**
   * `sendStreamMessage` after the request is sent: a refused request fails
   * with its status and the reply text (or the status text when the reply
   * is empty); a reply without a readable body fails; otherwise every
   * decoded chunk read before the end is handed to the listener unless it
   * is empty. `decoded` holds the chunks in the order the reader gives
   * them.
   */
  method ReceiveStream(status: nat, statusText: string, errorText: string, readable: bool, decoded: seq<string>)
    returns (r: Result<seq<string>, string>)
    ensures !IsOk(status) ==> r == Err(StatusMessage(status, if errorText != "" then errorText else statusText))
    ensures IsOk(status) && !readable ==> r == Err(NotReadable)
    ensures IsOk(status) && readable ==> r == Ok(NonEmpty(decoded))
  {
    if !IsOk(status) {
      return Err(StatusMessage(status, if errorText != "" then errorText else statusText));
    }
    if !readable {
      return Err(NotReadable);
    }
    var delivered: seq<string> := [];
    var i := 0;
    while i < |decoded|
      invariant 0 <= i <= |decoded|
      invariant delivered == NonEmpty(decoded[..i])
    {
      var chunk := decoded[i];
      if chunk != "" {
        delivered := delivered + [chunk];
      }
      assert decoded[..i + 1][..i] == decoded[..i];
      i := i + 1;
    }
    assert decoded[..i] == decoded;
    r := Ok(delivered);
  }

  // ---------------------------------------------------------------------------
  // Retrying

  const DefaultMaxRetries: int := 3
  const DefaultDelay: nat := 1000

  function Pow2(n: nat): (r: nat)
    ensures r >= 1
  {
    if n == 0 then 1 else 2 * Pow2(n - 1)
  }

  /** The number of attempts: one more than the retries, none when the retry count is negative. */
  function Attempts(maxRetries: int): nat {
    if maxRetries < 0 then 0 else maxRetries + 1
  }

  /** The waits taken after the first `n` failed attempts: `delay * 2^i` after attempt `i`. */
  function Backoff(delay: nat, n: nat): (r: seq<nat>)
    ensures |r| == n
    ensures forall i :: 0 <= i < n ==> r[i] == delay * Pow2(i)
  {
    if n == 0 then [] else Backoff(delay, n - 1) + [delay * Pow2(n - 1)]
  }

  function Sum(xs: seq<nat>): nat {
    if xs == [] then 0 else Sum(xs[..|xs| - 1]) + xs[|xs| - 1]
  }

  /** The waits of `n` failed attempts add up to `delay * (2^n - 1)`. */
  lemma {:induction false} BackoffTotal(delay: nat, n: nat)
    ensures Sum(Backoff(delay, n)) + delay == delay * Pow2(n)
  {
    if n > 0 {
      BackoffTotal(delay, n - 1);
      BackoffStep(delay, n);
      Double(delay, Pow2(n - 1));
    }
  }

  lemma BackoffStep(delay: nat, n: nat)
    requires n > 0
    ensures Sum(Backoff(delay, n)) == Sum(Backoff(delay, n - 1)) + delay * Pow2(n - 1)
    ensures Pow2(n) == 2 * Pow2(n - 1)
  {
    var b := Backoff(delay, n);
    assert b[..n - 1] == Backoff(delay, n - 1);
  }

  lemma Double(a: nat, p: nat)
    ensures a * p + a * p == a * (2 * p)
  {
  }

  /**
   * `retryRequest`: attempt `i` yields `attempt(i)`. Calls stop at the first
   * success, whose value is returned; after every failure but the last
   * permitted one the helper waits `delay * 2^i`. When every attempt fails
   * the last failure is raised (`None`: no attempt was made, and the helper
   * raises `undefined`).
   */
  method RetryRequest<T, E>(attempt: nat -> Result<T, E>, maxRetries: int, delay: nat)
    returns (r: Result<T, Option<E>>, calls: nat, waits: seq<nat>)
    ensures calls <= Attempts(maxRetries)
    ensures forall k :: 0 <= k < calls - 1 ==> attempt(k).Err?
    ensures r.Ok? ==> 0 < calls && attempt(calls - 1) == Ok(r.value) && waits == Backoff(delay, calls - 1)
    ensures r.Err? ==> calls == Attempts(maxRetries) && (calls > 0 ==> attempt(calls - 1).Err?)
    ensures r.Err? ==> r.error == (if calls == 0 then None else Some(attempt(calls - 1).error))
    ensures r.Err? ==> waits == Backoff(delay, if calls == 0 then 0 else calls - 1)
  {
    var lastError: Option<E> := None;
    waits := [];
    var i := 0;
    while i <= maxRetries
      invariant 0 <= i <= Attempts(maxRetries)
      invariant forall k :: 0 <= k < i ==> attempt(k).Err?
      invariant lastError == (if i == 0 then None else Some(attempt(i - 1).error))
      invariant waits == Backoff(delay, if i <= maxRetries then i else if maxRetries < 0 then 0 else maxRetries)
      decreases maxRetries + 1 - i
    {
      var outcome := attempt(i);
      if outcome.Ok? {
        return Ok(outcome.value), i + 1, waits;
      }
      lastError := Some(outcome.error);
      if i < maxRetries {
        waits := waits + [delay * Pow2(i)];
      }
      i := i + 1;
    }
    return Err(lastError), i, waits;
  }

  /** With the defaults, a request that always fails is made four times, with waits of 1, 2 and 4 seconds. */
  lemma DefaultSchedule()
    ensures Attempts(DefaultMaxRetries) == 4
    ensures Backoff(DefaultDelay, DefaultMaxRetries) == [1000, 2000, 4000]
    ensures Sum(Backoff(DefaultDelay, DefaultMaxRetries)) == 7000
  {
    BackoffTotal(DefaultDelay, 3);
    assert Pow2(3) == 8;
  }
}
