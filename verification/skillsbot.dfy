/**
 * The chat-assistant endpoint: validation of the key and the prompt, and a
 * generation call retried with exponential backoff when the vendor answers
 * "429 Too Many Requests".
 *
 * The vendor is an oracle: `answers[i]` is what attempt `i` (from 0)
 * produces, either a text or a failure carrying the HTTP status of the error
 * response, if any; it holds an answer for every attempt the loop may make.
 * Waiting is not modelled: the delays waited before each retry are returned
 * as data.
 */
module SkillsBot {
  import opened Seqs
  import opened Text

  const Retries := 3
  const InitialDelay := 1000

  datatype Attempt = Text(text: string) | Failure(status: Option<int>)

  /**
   * How the retry loop ends: with the trimmed text, with the error of the
   * last attempt rethrown, or, when it never runs, with nothing (`undefined`).
   */
  datatype Outcome = Returned(text: string) | Thrown(status: Option<int>) | NoAttempt

  /** The outcome, how many attempts were made, and the delays waited between them. */
  datatype Run = Run(outcome: Outcome, attempts: nat, delays: seq<int>)

  function Pow2(k: nat): (p: nat)
    ensures p >= 1
  {
    if k == 0 then 1 else 2 * Pow2(k - 1)
  }

  lemma DoubledDelay(delay: int, k: nat)
    requires k > 0
    ensures (delay * 2) * Pow2(k - 1) == delay * Pow2(k)
  {
    assert Pow2(k) == 2 * Pow2(k - 1);
  }

  predicate RateLimited(a: Attempt) {
    a == Failure(Some(429))
  }

  /**
   * The loop with `remaining` attempts left, `answers` the vendor's answers
   * to them and `delay` the next wait. A failure is retried only when its
   * status is 429 and it was not the last permitted attempt; the wait then
   * doubles.
   */
  function Loop(answers: seq<Attempt>, remaining: int, delay: int): (r: Run)
    requires |answers| >= remaining
    ensures remaining <= 0 ==> r == Run(NoAttempt, 0, [])
    ensures remaining > 0 ==> 1 <= r.attempts <= remaining && !r.outcome.NoAttempt?
    ensures r.attempts >= 1 ==> |r.delays| == r.attempts - 1
    ensures forall k :: 0 <= k < |r.delays| ==> r.delays[k] == delay * Pow2(k)
    ensures forall k :: 0 <= k < |r.delays| ==> RateLimited(answers[k])
    ensures r.outcome.Returned? ==>
      r.attempts >= 1 && answers[r.attempts - 1].Text?
      && r.outcome.text == Trim(answers[r.attempts - 1].text)
    ensures r.outcome.Thrown? ==>
      r.attempts >= 1 && answers[r.attempts - 1] == Failure(r.outcome.status)
      && (r.outcome.status != Some(429) || r.attempts == remaining)
    decreases remaining
  {
    if remaining <= 0 then Run(NoAttempt, 0, [])
    else
      match answers[0]
      case Text(t) => Run(Returned(Trim(t)), 1, [])
      case Failure(status) =>
        if status == Some(429) && remaining > 1 then
          var rest := Loop(answers[1..], remaining - 1, delay * 2);
          var r := Run(rest.outcome, rest.attempts + 1, [delay] + rest.delays);
          assert forall k :: 0 < k < |r.delays| ==> r.delays[k] == delay * Pow2(k) by {
            forall k | 0 < k < |r.delays| ensures r.delays[k] == delay * Pow2(k) {
              assert r.delays[k] == rest.delays[k - 1] == (delay * 2) * Pow2(k - 1);
              DoubledDelay(delay, k);
            }
          }
          assert forall k :: 0 < k < |r.delays| ==> RateLimited(answers[k]) by {
            forall k | 0 < k < |r.delays| ensures RateLimited(answers[k]) {
              assert answers[k] == answers[1..][k - 1];
            }
          }
          r
        else Run(Thrown(status), 1, [])
  }

  /** `makeGeminiRequest(prompt)` with its defaults: three attempts, first wait 1000 ms. */
  function Generate(answers: seq<Attempt>): (r: Run)
    requires |answers| >= Retries
    ensures 1 <= r.attempts <= Retries
    ensures !r.outcome.NoAttempt?
    ensures forall k :: 0 <= k < |r.delays| ==> r.delays[k] == InitialDelay * Pow2(k)
  {
    Loop(answers, Retries, InitialDelay)
  }

  /**
   * The loop retries exactly when it should: an attempt is followed by
   * another one if and only if it failed with 429 and was not the last
   * permitted attempt.
   */
  lemma {:induction false} RetryIffRateLimited(answers: seq<Attempt>, remaining: int, delay: int, k: nat)
    requires |answers| >= remaining
    requires k < Loop(answers, remaining, delay).attempts
    ensures k + 1 < Loop(answers, remaining, delay).attempts
            <==> RateLimited(answers[k]) && k < remaining - 1
    decreases k
  {
    if k > 0 {
      assert RateLimited(answers[0]) && remaining > 1;
      RetryIffRateLimited(answers[1..], remaining - 1, delay * 2, k - 1);
    }
  }

  /** Two rate-limit answers and then a text: the text is returned trimmed after waiting 1000 and 2000 ms. */
  lemma TwoRateLimitsThenText(text: string)
    ensures Generate([Failure(Some(429)), Failure(Some(429)), Text(text)])
            == Run(Returned(Trim(text)), 3, [1000, 2000])
  {
    var answers := [Failure(Some(429)), Failure(Some(429)), Text(text)];
    assert Loop(answers[1..][1..], 1, 4000) == Run(Returned(Trim(text)), 1, []);
    assert Loop(answers[1..], 2, 2000) == Run(Returned(Trim(text)), 2, [2000]);
  }

  /** Three rate-limit answers: the third is rethrown after waiting 1000 and 2000 ms. */
  lemma ThreeRateLimitsThrow()
    ensures Generate([Failure(Some(429)), Failure(Some(429)), Failure(Some(429))])
            == Run(Thrown(Some(429)), 3, [1000, 2000])
  {
    var answers := [Failure(Some(429)), Failure(Some(429)), Failure(Some(429))];
    assert Loop(answers[1..][1..], 1, 4000) == Run(Thrown(Some(429)), 1, []);
    assert Loop(answers[1..], 2, 2000) == Run(Thrown(Some(429)), 2, [2000]);
  }

  /** Any other failure of the first attempt is rethrown at once, with no wait. */
  lemma OtherFailureNotRetried(answers: seq<Attempt>, status: Option<int>)
    requires |answers| >= Retries && answers[0] == Failure(status) && status != Some(429)
    ensures Generate(answers) == Run(Thrown(status), 1, [])
  {
  }

  const KeyMissingText := "Gemini API key not configured"
  const BadPromptText := "Prompt is required and must be a string"
  const NoResponseText := "No response from Gemini API"
  const ProcessingText := "Error processing your request"

  datatype Body = Reply(reply: string) | Error(error: string)

  datatype Response = Response(status: int, body: Body)

  /**
   * The route handler. `apiKey` is "" when unset. `body` is `None` when it is
   * not JSON, `Some(None)` when `prompt` is absent or not a string.
   */
  function Post(apiKey: string, body: Option<Option<string>>, answers: seq<Attempt>): (r: Response)
    requires |answers| >= Retries
    ensures apiKey == "" ==> r == Response(500, Error(KeyMissingText))
    ensures apiKey != "" && body.None? ==> r == Response(500, Error(ProcessingText))
    ensures r.status == 400 <==>
      apiKey != "" && body.Some? && (body.value.None? || body.value.value == "")
    ensures r.status == 400 ==> r.body == Error(BadPromptText)
    ensures r.status == 200 <==>
      apiKey != "" && body.Some? && body.value.Some? && body.value.value != ""
      && Generate(answers).outcome.Returned? && Generate(answers).outcome.text != ""
    ensures r.status == 200 ==> r.body.Reply? && r.body.reply != "" && IsTrimmed(r.body.reply)
    ensures r.status == 200 ==> r.body == Reply(Generate(answers).outcome.text)
    ensures r.status in {200, 400, 500}
  {
    if apiKey == "" then Response(500, Error(KeyMissingText))
    else
      match body
      case None => Response(500, Error(ProcessingText))
      case Some(prompt) =>
        if prompt.None? || prompt.value == "" then Response(400, Error(BadPromptText))
        else
          match Generate(answers).outcome
          case Returned(text) =>
            if text == "" then Response(500, Error(NoResponseText))
            else
              TrimIdempotent(answers[Generate(answers).attempts - 1].text);
              Response(200, Reply(text))
          case Thrown(_) => Response(500, Error(ProcessingText))
          case NoAttempt => Response(500, Error(NoResponseText))
  }

  /** Without a key nothing else is looked at. */
  lemma KeyCheckedFirst(b1: Option<Option<string>>, b2: Option<Option<string>>,
                        g1: seq<Attempt>, g2: seq<Attempt>)
    requires |g1| >= Retries && |g2| >= Retries
    ensures Post("", b1, g1) == Post("", b2, g2)
  {
  }

  /** Two rate-limit answers and then a non-blank text: the route replies with that text, trimmed. */
  lemma RateLimitedTwiceThenReplies(apiKey: string, prompt: string, text: string)
    requires apiKey != "" && prompt != "" && !IsBlank(text)
    ensures Post(apiKey, Some(Some(prompt)), [Failure(Some(429)), Failure(Some(429)), Text(text)])
            == Response(200, Reply(Trim(text)))
  {
    TwoRateLimitsThenText(text);
  }

  /** Three rate-limit answers: the rethrown error is caught and answered with the processing error. */
  lemma RateLimitedThriceFails(apiKey: string, prompt: string)
    requires apiKey != "" && prompt != ""
    ensures Post(apiKey, Some(Some(prompt)), [Failure(Some(429)), Failure(Some(429)), Failure(Some(429))])
            == Response(500, Error(ProcessingText))
  {
    ThreeRateLimitsThrow();
  }

  /** A whitespace-only generated text is reported as no response. */
  lemma BlankTextIsNoResponse(apiKey: string, prompt: string, answers: seq<Attempt>)
    requires apiKey != "" && prompt != "" && |answers| >= Retries
    requires answers[0].Text? && IsBlank(answers[0].text)
    ensures Post(apiKey, Some(Some(prompt)), answers) == Response(500, Error(NoResponseText))
  {
  }
}
