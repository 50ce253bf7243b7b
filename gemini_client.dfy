/** The client around the generative-AI endpoint: the retry-with-backoff wrapper put
    around every call to it, and the parsing of its text output (lib/ai/gemini-client.ts).

    The call to the endpoint itself is an oracle `fn`: `fn(k)` is how the k-th call
    (counting from 0) ends. A wait of `d` milliseconds is an entry `d` in a trace. */
module GeminiClient {
  import opened Outcomes
  import opened JsText

  /** The defaults of `retryWithBackoff`: three retries, a first wait of one second. */
  const DefaultRetries: nat := 3
  const DefaultDelay: nat := 1000

  /** The one error every parse failure is turned into. */
  const ParseFailure := "Failed to parse AI response as JSON"

  /** The message the transport throws on a non-success HTTP status. */
  function TransportErrorMessage(status: nat, body: string): string {
    "Gemini API request failed: " + DecimalString(status) + " - " + body
  }

  /** The rate-limit test: the error has a message containing "429" or "quota".
      An error without a message is not a rate-limit error. */
  predicate IsRateLimited(message: Option<string>) {
    message.Some? && (Contains(message.value, "429") || Contains(message.value, "quota"))
  }

  /** What one run of the wrapper does: how it ends, how many calls to `fn` it makes,
      and the waits it performs, in order. */
  datatype RetryRun<T> = RetryRun(result: Completion<T>, calls: nat, waits: seq<nat>)

  /** A run that starts after `calls` earlier calls and the waits `waits`. */
  function After<T>(calls: nat, waits: seq<nat>, run: RetryRun<T>): RetryRun<T> {
    RetryRun(run.result, calls + run.calls, waits + run.waits)
  }

  /** The wrapper's recursion, started at the k-th call with the given budget and delay. */
  function Retry<T>(fn: nat -> Completion<T>, k: nat, retries: nat, delay: nat): RetryRun<T>
    decreases retries
  {
    var outcome := fn(k);
    if outcome.Normal? || retries == 0 || !IsRateLimited(outcome.message) then
      RetryRun(outcome, 1, [])
    else
      After(1, [delay], Retry(fn, k + 1, retries - 1, delay * 2))
  }

  /** `retryWithBackoff(fn, retries, delay)`: calls `fn`; on a rate-limit error with budget
      left it waits, doubles the delay, spends one unit of budget and calls again;
      any other ending is returned or rethrown as it is. */
  method RetryWithBackoff<T>(fn: nat -> Completion<T>, retries: nat, delay: nat)
    returns (result: Completion<T>, calls: nat, waits: seq<nat>)
    ensures RetryRun(result, calls, waits) == Retry(fn, 0, retries, delay)
  {
    var budget, wait := retries, delay;
    calls, waits := 0, [];
    while true
      invariant Retry(fn, 0, retries, delay) == After(calls, waits, Retry(fn, calls, budget, wait))
      decreases budget
    {
      var outcome := fn(calls);
      if outcome.Normal? || budget == 0 || !IsRateLimited(outcome.message) {
        return outcome, calls + 1, waits;
      }
      ghost var rest := Retry(fn, calls + 1, budget - 1, wait * 2);
      assert waits + ([wait] + rest.waits) == (waits + [wait]) + rest.waits;
      calls, waits := calls + 1, waits + [wait];
      budget, wait := budget - 1, wait * 2;
    }
  }

  function Pow2(n: nat): nat {
    if n == 0 then 1 else 2 * Pow2(n - 1)
  }

  /** A first call that returns ends the run: its value, one call, no wait. */
  lemma FirstCallReturns<T>(fn: nat -> Completion<T>, k: nat, retries: nat, delay: nat)
    requires fn(k).Normal?
    ensures Retry(fn, k, retries, delay) == RetryRun(fn(k), 1, [])
  {
  }

  /** An error that is not a rate-limit error (including one without a message) is
      rethrown after one call, without waiting. */
  lemma OtherErrorRethrown<T>(fn: nat -> Completion<T>, k: nat, retries: nat, delay: nat)
    requires fn(k).Threw? && !IsRateLimited(fn(k).message)
    ensures Retry(fn, k, retries, delay) == RetryRun(fn(k), 1, [])
  {
  }

  /** With no budget left, any error is rethrown unchanged, a rate-limit error included. */
  lemma NoBudgetRethrows<T>(fn: nat -> Completion<T>, k: nat, delay: nat)
    requires fn(k).Threw?
    ensures Retry(fn, k, 0, delay) == RetryRun(fn(k), 1, [])
  {
  }

  /** A rate-limit error with budget r > 0: wait the current delay, then run again with
      budget r - 1 and the delay doubled. */
  lemma RateLimitWaitsAndRetries<T>(fn: nat -> Completion<T>, k: nat, retries: nat, delay: nat)
    requires fn(k).Threw? && IsRateLimited(fn(k).message) && retries > 0
    ensures Retry(fn, k, retries, delay)
         == After(1, [delay], Retry(fn, k + 1, retries - 1, 2 * delay))
  {
  }

  /** The i-th call threw a rate-limit error. */
  predicate HitRateLimit<T>(fn: nat -> Completion<T>, i: nat) {
    fn(i).Threw? && IsRateLimited(fn(i).message)
  }

  /** Every run makes between 1 and retries + 1 calls; every call but the last threw a
      rate-limit error, and the run ends exactly as its last call did. */
  lemma {:induction false} RetryCalls<T>(fn: nat -> Completion<T>, k: nat, retries: nat, delay: nat)
    ensures var run := Retry(fn, k, retries, delay);
      && 1 <= run.calls <= retries + 1
      && (forall i: nat :: k <= i < k + run.calls - 1 ==> HitRateLimit(fn, i))
      && run.result == fn(k + run.calls - 1)
    decreases retries
  {
    var outcome := fn(k);
    if !(outcome.Normal? || retries == 0 || !IsRateLimited(outcome.message)) {
      var rest := Retry(fn, k + 1, retries - 1, delay * 2);
      RetryCalls(fn, k + 1, retries - 1, delay * 2);
      var run := Retry(fn, k, retries, delay);
      assert run.calls == 1 + rest.calls && run.result == rest.result;
      assert HitRateLimit(fn, k);
    }
  }

  /** A run waits once before each call but the first, and the i-th wait is delay * 2^i. */
  lemma {:induction false} RetryWaits<T>(fn: nat -> Completion<T>, k: nat, retries: nat, delay: nat)
    ensures var run := Retry(fn, k, retries, delay);
      && |run.waits| == run.calls - 1
      && (forall i :: 0 <= i < |run.waits| ==> run.waits[i] == delay * Pow2(i))
    decreases retries
  {
    var outcome := fn(k);
    if !(outcome.Normal? || retries == 0 || !IsRateLimited(outcome.message)) {
      var rest := Retry(fn, k + 1, retries - 1, delay * 2);
      RetryWaits(fn, k + 1, retries - 1, delay * 2);
      var run := Retry(fn, k, retries, delay);
      assert run.calls == 1 + rest.calls && run.waits == [delay] + rest.waits;
      forall i | 0 <= i < |run.waits| ensures run.waits[i] == delay * Pow2(i) {
        if i > 0 {
          assert run.waits[i] == rest.waits[i - 1] == (delay * 2) * Pow2(i - 1);
          assert (delay * 2) * Pow2(i - 1) == delay * (2 * Pow2(i - 1));
        }
      }
    }
  }

  /** With the defaults, `fn` is called at most four times and the waits are a prefix of
      1000, 2000, 4000 milliseconds. */
  lemma DefaultSchedule<T>(fn: nat -> Completion<T>)
    ensures var run := Retry(fn, 0, DefaultRetries, DefaultDelay);
      && run.calls <= 4
      && run.waits <= [1000, 2000, 4000]
  {
    RetryCalls(fn, 0, DefaultRetries, DefaultDelay);
    RetryWaits(fn, 0, DefaultRetries, DefaultDelay);
    var run := Retry(fn, 0, DefaultRetries, DefaultDelay);
    var schedule := [1000, 2000, 4000];
    assert Pow2(0) == 1 && Pow2(1) == 2 && Pow2(2) == 4;
    forall i | 0 <= i < |run.waits| ensures run.waits[i] == schedule[i] {
      assert run.waits[i] == 1000 * Pow2(i);
    }
    assert run.waits == schedule[..|run.waits|];
  }

  /** When the calls k .. k + n - 1 hit the rate limit and call k + n returns, with
      n <= retries, the run returns that value after n waits. */
  lemma {:induction false} RecoversAfterRateLimits<T>(fn: nat -> Completion<T>, k: nat, n: nat,
                                                      retries: nat, delay: nat)
    requires n <= retries
    requires forall i: nat :: k <= i < k + n ==> HitRateLimit(fn, i)
    requires fn(k + n).Normal?
    ensures var run := Retry(fn, k, retries, delay);
      run.result == fn(k + n) && run.calls == n + 1 && |run.waits| == n
    decreases n
  {
    if n > 0 {
      assert HitRateLimit(fn, k);
      RecoversAfterRateLimits(fn, k + 1, n - 1, retries - 1, delay * 2);
    }
  }

  /** With the defaults, two rate-limit errors followed by a success return the third
      call's value after two waits, the second twice the first. */
  lemma SucceedsOnThirdAttempt<T>(fn: nat -> Completion<T>)
    requires HitRateLimit(fn, 0) && HitRateLimit(fn, 1) && fn(2).Normal?
    ensures Retry(fn, 0, DefaultRetries, DefaultDelay) == RetryRun(fn(2), 3, [1000, 2000])
  {
    RateLimitWaitsAndRetries(fn, 0, 3, 1000);
    RateLimitWaitsAndRetries(fn, 1, 2, 2000);
    FirstCallReturns(fn, 2, 1, 4000);
  }

  /** An HTTP 429 from the endpoint is classified as a rate-limit error, whatever its body. */
  lemma Status429IsRateLimited(body: string)
    ensures IsRateLimited(Some(TransportErrorMessage(429, body)))
  {
    assert NatDigits(4) == "4";
    assert NatDigits(42) == "42";
    assert DecimalString(429) == "429";
    var m := TransportErrorMessage(429, body);
    assert m[27..30] == "429";
    assert OccursAt(m, "429", 27);
    ContainsIffOccurs(m, "429");
  }

  /** `s.replace(/<marker>\n?/g, "")`: every occurrence of the marker, found left to right
      in the original text, is removed together with one newline right after it. */
  function RemoveMarkers(s: string, marker: string): (r: string)
    requires marker != []
    ensures |r| <= |s|
    ensures !Contains(s, marker) ==> r == s
    ensures |s| < |marker| ==> r == s
    decreases |s|
  {
    if s == [] then []
    else if StartsWith(s, marker) then
      var rest := s[|marker|..];
      if rest != [] && rest[0] == '\n' then RemoveMarkers(rest[1..], marker)
      else RemoveMarkers(rest, marker)
    else [s[0]] + RemoveMarkers(s[1..], marker)
  }

  /** A character that cannot start the marker passes through, and the removal continues
      after it. */
  lemma RemoveMarkersSkipsChar(c: char, s: string, marker: string)
    requires marker != [] && marker[0] != c
    ensures RemoveMarkers([c] + s, marker) == [c] + RemoveMarkers(s, marker)
  {
    var t := [c] + s;
    assert !StartsWith(t, marker) by { assert t[0] == c; }
    assert t[1..] == s;
  }

  /** Text in which the marker's first character never occurs passes through unchanged
      and leaves the removal to continue after it. */
  lemma {:induction false} RemoveMarkersSkipsClean(a: string, s: string, marker: string)
    requires marker != [] && marker[0] !in a
    ensures RemoveMarkers(a + s, marker) == a + RemoveMarkers(s, marker)
    decreases |a|
  {
    if a == [] {
      assert a + s == s;
    } else {
      RemoveMarkersSkipsClean(a[1..], s, marker);
      ConsAppend(a, s);
      RemoveMarkersSkipsChar(a[0], a[1..] + s, marker);
      ConsAppend(a, RemoveMarkers(s, marker));
    }
  }

  /** A marker at the head of the text, followed by a newline, goes together with it. */
  lemma RemoveLeadingMarker(marker: string, rest: string)
    requires marker != []
    ensures RemoveMarkers(marker + "\n" + rest, marker) == RemoveMarkers(rest, marker)
  {
    var s := marker + "\n" + rest;
    assert s[..|marker|] == marker;
    assert s[|marker|..] == "\n" + rest;
    assert s[|marker|..][1..] == rest;
  }

  /** `s.replace(/```\n?$/g, "")`: one closing fence at the very end of the text, with
      or without a newline after it, is removed. */
  function StripClosingFence(s: string): (r: string)
    ensures EndsWith(s, "```\n") ==> s == r + "```\n"
    ensures !EndsWith(s, "```\n") && EndsWith(s, "```") ==> s == r + "```"
    ensures !EndsWith(s, "```\n") && !EndsWith(s, "```") ==> r == s
  {
    if EndsWith(s, "```\n") then s[..|s| - 4]
    else if EndsWith(s, "```") then s[..|s| - 3]
    else s
  }

  /** The cleaning `parseAIResponse` applies before parsing: trim; after an opening
      "```json", remove every "```json" marker and one closing fence; after any other
      opening "```", remove every "```"; otherwise leave the trimmed text. */
  function StripFences(text: string): string {
    var t := Trim(text);
    if StartsWith(t, "```json") then StripClosingFence(RemoveMarkers(t, "```json"))
    else if StartsWith(t, "```") then RemoveMarkers(t, "```")
    else t
  }

  /** `parseAIResponse(text)` with `JSON.parse` as the oracle `parse` (`None` when it
      throws): the parsed value, or the single parse error. */
  function ParseAIResponse<T>(parse: string -> Option<T>, text: string): (r: Completion<T>)
    ensures r.Normal? <==> parse(StripFences(text)).Some?
    ensures r.Normal? ==> r.value == parse(StripFences(text)).value
    ensures r.Threw? ==> r == Threw(Some(ParseFailure))
  {
    match parse(StripFences(text))
    case Some(v) => Normal(v)
    case None => Threw(Some(ParseFailure))
  }

  /** Text that does not start with a fence once trimmed is parsed trimmed and otherwise
      unchanged. */
  lemma UnfencedTextUnchanged(text: string)
    requires !StartsWith(Trim(text), "```")
    ensures StripFences(text) == Trim(text)
  {
    var t := Trim(text);
    JsonMarkerOpensFence(t);
    UnfencedBranch(text, t);
  }

  /** Text opening with "```json" opens with "```". */
  lemma JsonMarkerOpensFence(t: string)
    ensures StartsWith(t, "```json") ==> StartsWith(t, "```")
  {
    if StartsWith(t, "```json") {
      assert t[..3] == t[..7][..3];
    }
  }

  /** Trimmed text opening with neither marker is handed on as it is. */
  lemma UnfencedBranch(text: string, t: string)
    requires t == Trim(text) && !StartsWith(t, "```") && !StartsWith(t, "```json")
    ensures StripFences(text) == t
  {
  }

  /** Text that starts and ends with a backtick is left alone by the trimming. */
  lemma FencedTextTrimmed(text: string)
    requires |text| >= 1 && text[0] == '`' && text[|text| - 1] == '`'
    ensures Trim(text) == text
  {
    TrimOfTrimmed(text);
  }

  /** A payload without backticks inside a "```json" fence (opening line, payload,
      closing "```") reaches the parser as exactly the payload. */
  lemma JsonFenceStripped(p: string)
    requires '`' !in p
    ensures StripFences("```json\n" + p + "```") == p
  {
    var text := "```json\n" + p + "```";
    FencedTextTrimmed(text);
    JsonFenceUnmarked(p);
    ClosingFenceRemoved(p);
    JsonBranch(text, p + "```");
  }

  /** The marker removal drops the opening line of a "```json" fence and keeps the rest. */
  lemma JsonFenceUnmarked(p: string)
    requires '`' !in p
    ensures var text := "```json\n" + p + "```";
      StartsWith(text, "```json") && RemoveMarkers(text, "```json") == p + "```"
  {
    var text := "```json\n" + p + "```";
    assert text[..7] == "```json";
    assert text == "```json" + "\n" + (p + "```");
    RemoveLeadingMarker("```json", p + "```");
    RemoveMarkersSkipsClean(p, "```", "```json");
  }

  /** Trimmed text opening with "```json" goes through the marker removal and then the
      closing-fence removal. */
  lemma JsonBranch(text: string, unmarked: string)
    requires Trim(text) == text && StartsWith(text, "```json")
    requires RemoveMarkers(text, "```json") == unmarked
    ensures StripFences(text) == StripClosingFence(unmarked)
  {
  }

  /** A closing fence at the end of the text is removed and nothing else is. */
  lemma ClosingFenceRemoved(body: string)
    ensures StripClosingFence(body + "```") == body
  {
    var s := body + "```";
    assert s[|s| - 1] == '`';
    assert s[|s| - 3..] == "```";
    assert s[..|s| - 3] == body;
  }

  /** The same payload inside a plain "```" fence reaches the parser the same way. */
  lemma PlainFenceStripped(p: string)
    requires '`' !in p
    ensures StripFences("```\n" + p + "```") == p
  {
    var text := "```\n" + p + "```";
    FencedTextTrimmed(text);
    PlainFenceUnmarked(p);
    PlainBranch(text, p);
  }

  /** The marker removal drops both fences of a plain "```" fence and keeps the payload. */
  lemma PlainFenceUnmarked(p: string)
    requires '`' !in p
    ensures var text := "```\n" + p + "```";
      && StartsWith(text, "```") && !StartsWith(text, "```json")
      && RemoveMarkers(text, "```") == p
  {
    var text := "```\n" + p + "```";
    assert text[..3] == "```" && text[3] == '\n';
    assert text == "```" + "\n" + (p + "```");
    RemoveLeadingMarker("```", p + "```");
    RemoveMarkersSkipsClean(p, "```", "```");
    assert RemoveMarkers("```", "```") == [];
  }

  /** Trimmed text opening with "```" but not "```json" goes through the marker removal
      only. */
  lemma PlainBranch(text: string, unmarked: string)
    requires Trim(text) == text && StartsWith(text, "```") && !StartsWith(text, "```json")
    requires RemoveMarkers(text, "```") == unmarked
    ensures StripFences(text) == unmarked
  {
  }

  /** Both fence styles around the same payload give the same parse. */
  lemma FenceStylesAgree<T>(parse: string -> Option<T>, p: string)
    requires '`' !in p
    ensures ParseAIResponse(parse, "```json\n" + p + "```")
         == ParseAIResponse(parse, "```\n" + p + "```")
  {
    JsonFenceStripped(p);
    PlainFenceStripped(p);
  }
}
