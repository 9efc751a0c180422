/**
 * `TwitterService.postTweet` (`src/services/twitter.js`): up to three posting
 * attempts; a rate-limited attempt that is not the last one is followed by an
 * exponential back-off sleep and a retry; any other failure, and a rate limit
 * on the last attempt, ends the run unposted. The Twitter client is an
 * oracle that answers attempt number `n` for a given text; the sleeps are
 * recorded as the list of their durations.
 */
module Twitter {
  import opened Wrappers
  import opened Strings

  const MAX_RETRIES: nat := 3
  const BASE_DELAY_MS: nat := 60000

  /** The two back-off sleeps a run can contain, in order. */
  const BACKOFFS: seq<nat> := [60000, 120000]

  /**
   * What `client.v2.tweet(text)` does on one attempt. A rejection carries the
   * status code the service reads (`error.code || error.status ||
   * error.data.status`, absent when none is a number) and the JSON text of the
   * error detail.
   */
  datatype TweetReply = Posted(id: string) | Rejected(status: Option<int>, detail: string)

  /** The client answering the `n`-th attempt (from 1) to post `text`. */
  type TwitterClient = (string, nat) -> TweetReply

  /** Why a run ended. `LoopExhausted` is the `return false` after the loop. */
  datatype Stop = Accepted | EmptyText | RateLimitPersists | Forbidden | OtherFailure | LoopExhausted

  /** One call of `postTweet`: the result, the number of client calls and the sleeps between them. */
  datatype TweetRun = TweetRun(posted: bool, attempts: nat, delays: seq<nat>, stop: Stop)

  /** The rate-limit test: status 429, or `429` or `Too Many Requests` in the error text. */
  predicate IsRateLimitError(status: Option<int>, detail: string)
  {
    status == Some(429) || Contains(detail, "429") || Contains(detail, "Too Many Requests")
  }

  /** The permission/duplicate test: status 403, or `403` in the error text. */
  predicate IsForbiddenError(status: Option<int>, detail: string)
  {
    status == Some(403) || Contains(detail, "403")
  }

  function Pow2(n: nat): (p: nat)
    ensures p >= 1
  {
    if n == 0 then 1 else 2 * Pow2(n - 1)
  }

  /** The sleep after a rate limit on attempt `attempt`: `baseDelayMs * 2^(attempt-1)`. */
  function BackoffDelay(attempt: nat): (d: nat)
    requires attempt >= 1
    ensures d >= BASE_DELAY_MS
  {
    BASE_DELAY_MS * Pow2(attempt - 1)
  }

  /** The run from attempt `attempt` on, after the sleeps `delays`. */
  function RunFrom(text: string, client: TwitterClient, attempt: nat, delays: seq<nat>): TweetRun
    requires attempt >= 1
    decreases MAX_RETRIES + 1 - attempt
  {
    if attempt > MAX_RETRIES then TweetRun(false, MAX_RETRIES, delays, LoopExhausted)
    else
      match client(text, attempt)
      case Posted(_) => TweetRun(true, attempt, delays, Accepted)
      case Rejected(status, detail) =>
        if IsRateLimitError(status, detail) && attempt < MAX_RETRIES then
          RunFrom(text, client, attempt + 1, delays + [BackoffDelay(attempt)])
        else if IsRateLimitError(status, detail) then TweetRun(false, attempt, delays, RateLimitPersists)
        else if IsForbiddenError(status, detail) then TweetRun(false, attempt, delays, Forbidden)
        else TweetRun(false, attempt, delays, OtherFailure)
  }

  /** The run `postTweet(text)` makes; `None` is an absent text. */
  function Expected(text: Option<string>, client: TwitterClient): TweetRun
  {
    if text.None? || |text.value| == 0 then TweetRun(false, 0, [], EmptyText)
    else RunFrom(text.value, client, 1, [])
  }

  /** Every attempt before the last one of `run` was rejected for a rate limit. */
  ghost predicate RetriedOnlyOnRateLimit(text: string, client: TwitterClient, from: nat, run: TweetRun)
  {
    forall i :: from <= i < run.attempts ==>
      client(text, i).Rejected? && IsRateLimitError(client(text, i).status, client(text, i).detail)
  }

  /** How the last attempt of `run` was answered, for a run that made one. */
  ghost predicate EndsAsAnswered(text: string, client: TwitterClient, run: TweetRun)
  {
    run.attempts >= 1 &&
    match client(text, run.attempts)
    case Posted(_) => run.posted && run.stop == Accepted
    case Rejected(status, detail) =>
      !run.posted &&
      run.stop == (if IsRateLimitError(status, detail) then RateLimitPersists
                   else if IsForbiddenError(status, detail) then Forbidden
                   else OtherFailure)
  }

  /** From any attempt on, with the sleeps so far, the run has the shape of the retry loop. */
  lemma {:induction false} RunFromFacts(text: string, client: TwitterClient, attempt: nat, delays: seq<nat>)
    requires 1 <= attempt <= MAX_RETRIES && delays == BACKOFFS[..attempt - 1]
    ensures var run := RunFrom(text, client, attempt, delays);
      attempt <= run.attempts <= MAX_RETRIES && run.delays == BACKOFFS[..run.attempts - 1]
      && RetriedOnlyOnRateLimit(text, client, attempt, run)
      && EndsAsAnswered(text, client, run)
      && (run.attempts < MAX_RETRIES ==> !(run.stop == RateLimitPersists))
    decreases MAX_RETRIES + 1 - attempt
  {
    var run := RunFrom(text, client, attempt, delays);
    match client(text, attempt)
    case Posted(_) =>
    case Rejected(status, detail) =>
      if IsRateLimitError(status, detail) && attempt < MAX_RETRIES {
        assert BackoffDelay(attempt) == BACKOFFS[attempt - 1];
        assert delays + [BackoffDelay(attempt)] == BACKOFFS[..attempt];
        RunFromFacts(text, client, attempt + 1, delays + [BackoffDelay(attempt)]);
      }
  }

  /** An absent or empty text is refused without any client call or sleep. */
  lemma EmptyTextNotPosted(text: Option<string>, client: TwitterClient)
    requires text.None? || text.value == ""
    ensures Expected(text, client) == TweetRun(false, 0, [], EmptyText)
  {
  }

  /** A non-empty text gets between one and `maxRetries` client calls, and the final `return false` is never reached. */
  lemma AttemptsBounded(text: string, client: TwitterClient)
    requires text != ""
    ensures var run := Expected(Some(text), client);
      1 <= run.attempts <= MAX_RETRIES && run.stop != LoopExhausted && run.stop != EmptyText
  {
    RunFromFacts(text, client, 1, []);
  }

  /** The text is posted exactly when the client accepted the last attempt; all earlier attempts were rate limited. */
  lemma PostedIffLastAccepted(text: string, client: TwitterClient)
    requires text != ""
    ensures var run := Expected(Some(text), client);
      (run.posted <==> client(text, run.attempts).Posted?)
      && RetriedOnlyOnRateLimit(text, client, 1, run)
  {
    RunFromFacts(text, client, 1, []);
  }

  /** The sleeps are `60000 * 2^(i-1)` after the `i`-th attempt, one per retry. */
  lemma ExponentialBackoff(text: string, client: TwitterClient)
    requires text != ""
    ensures var run := Expected(Some(text), client);
      |run.delays| == run.attempts - 1
      && forall i :: 0 <= i < |run.delays| ==> run.delays[i] == BASE_DELAY_MS * Pow2(i)
  {
    RunFromFacts(text, client, 1, []);
  }

  /** A rejection that is not a rate limit ends the run at once, 403 included. */
  lemma NoRetryWithoutRateLimit(text: string, client: TwitterClient, k: nat)
    requires text != "" && 1 <= k
    requires client(text, k).Rejected? && !IsRateLimitError(client(text, k).status, client(text, k).detail)
    ensures var run := Expected(Some(text), client);
      run.attempts <= k
      && (run.attempts == k ==> !run.posted)
      && (run.attempts == k ==> (run.stop == Forbidden <==> IsForbiddenError(client(text, k).status, client(text, k).detail)))
  {
    RunFromFacts(text, client, 1, []);
  }

  /** A rate limit stops the run only on the last attempt; before it, the run goes on to the next attempt. */
  lemma RateLimitRetriedUntilLast(text: string, client: TwitterClient, k: nat)
    requires text != "" && 1 <= k < MAX_RETRIES
    requires client(text, k).Rejected? && IsRateLimitError(client(text, k).status, client(text, k).detail)
    ensures var run := Expected(Some(text), client);
      run.attempts >= k ==> run.attempts > k && run.delays[k - 1] == BackoffDelay(k)
  {
    RunFromFacts(text, client, 1, []);
  }

  /**
   * `postTweet(text)`: the loop over attempts 1 to `maxRetries` with its
   * early returns and the `continue` after a back-off sleep.
   */
  method PostTweet(text: Option<string>, client: TwitterClient) returns (run: TweetRun)
    ensures run == Expected(text, client)
    ensures run.attempts <= MAX_RETRIES
    ensures run.posted ==> text.Some? && text.value != "" && client(text.value, run.attempts).Posted?
  {
    if text.None? || |text.value| == 0 {
      return TweetRun(false, 0, [], EmptyText);
    }
    AttemptsBounded(text.value, client);
    PostedIffLastAccepted(text.value, client);
    var delays: seq<nat> := [];
    for attempt := 1 to MAX_RETRIES + 1
      invariant RunFrom(text.value, client, attempt, delays) == Expected(text, client)
    {
      match client(text.value, attempt)
      case Posted(_) =>
        return TweetRun(true, attempt, delays, Accepted);
      case Rejected(status, detail) =>
        if IsRateLimitError(status, detail) {
          if attempt < MAX_RETRIES {
            delays := delays + [BackoffDelay(attempt)];
            continue;
          }
          return TweetRun(false, attempt, delays, RateLimitPersists);
        }
        if IsForbiddenError(status, detail) {
          return TweetRun(false, attempt, delays, Forbidden);
        }
        return TweetRun(false, attempt, delays, OtherFailure);
    }
    return TweetRun(false, MAX_RETRIES, delays, LoopExhausted);
  }
}
