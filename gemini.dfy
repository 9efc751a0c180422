/**
 * The Gemini key/model rotation controller (`RotationManager`,
 * `src/services/gemini.js`). It owns the current key and model positions, two
 * cooldown ledgers (expiry time by key position and by model name), the time
 * of the last dispatched request, and a retry loop that tries (key, model)
 * pairs within a budget of `|keys| * |MODEL_PRIORITY|` attempts.
 *
 * The environment is explicit: `now` is the clock `Date.now()` reads and every
 * sleep advances it; the generation SDK is an oracle `Backend` that answers a
 * call from its key, model, prompt and dispatch time; the ghost field `calls`
 * records every call made to it.
 */
module Gemini {
  import opened Wrappers
  import opened Strings

  /** The generation models the manager rotates through. */
  datatype Model = Gemini20Flash | Gemini15Flash | Gemini25FlashLite | Gemini15Flash8b
  {
    /** The model name passed to the SDK. */
    function Name(): string
    {
      match this
      case Gemini20Flash => "gemini-2.0-flash"
      case Gemini15Flash => "gemini-1.5-flash"
      case Gemini25FlashLite => "gemini-2.5-flash-lite"
      case Gemini15Flash8b => "gemini-1.5-flash-8b"
    }
  }

  /** The models, most capable first. */
  const MODEL_PRIORITY: seq<Model> := [Gemini20Flash, Gemini15Flash, Gemini25FlashLite, Gemini15Flash8b]

  /**
   * The priority list names every model once, under distinct names, so a
   * ledger keyed by `Model` is the ledger keyed by model name.
   */
  lemma ModelPriorityListsEachModelOnce(m: Model)
    ensures m in MODEL_PRIORITY
    ensures forall i, j :: 0 <= i < j < |MODEL_PRIORITY| ==> MODEL_PRIORITY[i].Name() != MODEL_PRIORITY[j].Name()
  {
    assert |MODEL_PRIORITY[0].Name()| == 16 && MODEL_PRIORITY[0].Name()[9] == '0';
    assert |MODEL_PRIORITY[1].Name()| == 16 && MODEL_PRIORITY[1].Name()[9] == '5';
    assert |MODEL_PRIORITY[2].Name()| == 21;
    assert |MODEL_PRIORITY[3].Name()| == 19;
  }

  /** Minimum spacing between two dispatched requests, in ms. */
  const MIN_REQUEST_INTERVAL: int := 2000
  /** Cooldown of a model that answered "not found"/"not supported". */
  const MODEL_ERROR_COOLDOWN: int := 300000
  /** Cooldowns of the key and of the model after a rate-limit answer. */
  const KEY_RATE_LIMIT_COOLDOWN: int := 60000
  const MODEL_RATE_LIMIT_COOLDOWN: int := 30000
  /** Pause when a rate limit leaves no other key and no lower model. */
  const EXHAUSTED_BACKOFF: nat := 10000

  /** One answer of the generation SDK: the response text, or the message of the error it threw ("" when it had none). */
  datatype Reply = Ok(text: string) | Err(message: string)

  /** One call made to the generation SDK: key position, model name, dispatch time and answer. */
  datatype Call = Call(keyIndex: nat, model: Model, time: int, reply: Reply)

  /** The generation SDK as an oracle: key, model name, prompt and dispatch time determine the answer. */
  type Backend = (string, string, string, int) -> Reply

  /** The attempt budget of one request with `keyCount` keys: one attempt per (key, model) pair. */
  function MaxAttempts(keyCount: nat): nat
  {
    keyCount * 4
  }

  /** The budget is the source's `keys.length * MODEL_PRIORITY.length`: every pair gets one attempt. */
  lemma MaxAttemptsIsPairCount(keyCount: nat)
    ensures MaxAttempts(keyCount) == keyCount * |MODEL_PRIORITY|
  {
  }

  /** Why `generateContentWithRetry` throws. */
  datatype GenError = NoKeys | Exhausted(attempts: nat)
  {
    /** The message of the thrown `Error`. */
    function Message(): string
    {
      match this
      case NoKeys => "No Gemini Keys available."
      case Exhausted(n) => "All API keys and models exhausted after " + NatToString(n) + " attempts."
    }
  }

  /** The outcome of one `generateContentWithRetry` request: the cleaned text, or the error it throws. */
  datatype GenResult = Generated(text: string) | Failed(error: GenError)

  /** The three ways the catch block treats a failed call. */
  datatype ErrorClass = ModelUnavailable | RateLimited | Unclassified

  /** `isModelError`: case-sensitive search for "404", "not found" or "not supported". */
  predicate IsModelError(message: string)
  {
    Contains(message, "404") || Contains(message, "not found") || Contains(message, "not supported")
  }

  /** `isRateLimit`: case-sensitive search for "429", "Quota" or "RESOURCE_EXHAUSTED". */
  predicate IsRateLimit(message: string)
  {
    Contains(message, "429") || Contains(message, "Quota") || Contains(message, "RESOURCE_EXHAUSTED")
  }

  /** The branch the catch block takes; the model-error test is made first. */
  function Classify(message: string): ErrorClass
  {
    if IsModelError(message) then ModelUnavailable
    else if IsRateLimit(message) then RateLimited
    else Unclassified
  }

  /** `text.replace(/^"|"$/g, '')`: drops one leading and one trailing double quote. */
  function StripQuotes(s: string): string
  {
    var a := if |s| > 0 && s[0] == '"' then s[1..] else s;
    if |a| > 0 && a[|a| - 1] == '"' then a[..|a| - 1] else a
  }

  /** The text a successful request returns: quotes stripped first, then white space trimmed. */
  function CleanReply(text: string): (r: string)
    ensures IsTrimmed(r)
  {
    Trim(StripQuotes(text))
  }

  /** The opening quote `StripQuotes` drops: one when `text` starts with a double quote. */
  function LeadingQuote(text: string): string
  {
    if |text| > 0 && text[0] == '"' then "\"" else ""
  }

  /** The closing quote `StripQuotes` drops: one when what follows the opening quote ends with a double quote. */
  function TrailingQuote(text: string): string
  {
    if |text| > |LeadingQuote(text)| && text[|text| - 1] == '"' then "\"" else ""
  }

  /** Stripping removes exactly the leading and the trailing quote. */
  lemma StripQuotesInfix(text: string)
    ensures text == LeadingQuote(text) + StripQuotes(text) + TrailingQuote(text)
  {
    var q1, q2 := LeadingQuote(text), TrailingQuote(text);
    var a := text[|q1|..];
    assert a == (if |text| > 0 && text[0] == '"' then text[1..] else text);
    assert text == q1 + a;
  }

  /**
   * What cleaning removes: the quotes `StripQuotes` drops and the white space
   * just inside them; the cleaned text is what lies in between.
   */
  lemma CleanReplyInfix(text: string)
    ensures exists w1, w2 :: AllWhitespace(w1) && AllWhitespace(w2)
              && text == LeadingQuote(text) + w1 + CleanReply(text) + w2 + TrailingQuote(text)
  {
    var b := StripQuotes(text);
    StripQuotesInfix(text);
    TrimSplit(b);
    var w1, w2 :| AllWhitespace(w1) && AllWhitespace(w2) && b == w1 + Trim(b) + w2;
    Regroup(LeadingQuote(text), w1, Trim(b), w2, TrailingQuote(text));
  }

  /** Replacing the middle of a concatenation by its three parts. */
  lemma Regroup(a: string, b: string, c: string, d: string, e: string)
    ensures a + (b + c + d) + e == a + b + c + d + e
  {
  }

  /** A ledger entry; an absent entry counts as 0 (`|| 0`). */
  function Expiry<K>(ledger: map<K, int>, k: K): int
  {
    if k in ledger then ledger[k] else 0
  }

  /** A call whose failure the catch block classified as a rate limit. */
  predicate RateLimitedCall(c: Call)
  {
    c.reply.Err? && Classify(c.reply.message) == RateLimited
  }

  /** The key position after `rotateKey` with `keyCount` keys: the next one, wrapping, when there are at least two. */
  function NextKey(k: nat, keyCount: nat): nat
  {
    if keyCount <= 1 then k else (k + 1) % keyCount
  }

  /** A position less than two laps round a ring of `n` positions wraps at most once. */
  lemma ModWrap(x: nat, n: nat)
    requires 0 < n && x < 2 * n
    ensures x % n == if x < n then x else x - n
  {
    var q, r := x / n, x % n;
    assert x == n * q + r && 0 <= r < n;
    assert q < 0 ==> n * q <= n * -1;
    assert q > 1 ==> n * q >= n * 2;
  }

  /** One step forward on a ring of `n` positions. */
  lemma NextOnRing(k: nat, n: nat)
    requires k < n
    ensures (k + 1) % n == if k + 1 < n then k + 1 else 0
  {
    ModWrap(k + 1, n);
  }

  /**
   * The part of a manager's state a pass of the retry loop changes: the
   * positions, the two ledgers, the clock and the time of the last request.
   */
  datatype Rotation = Rotation(
    keyIndex: nat, modelIndex: nat, keyCooldowns: map<nat, int>, modelCooldowns: map<Model, int>, now: int,
    last: int)

  /** Both positions are in bounds for `keyCount` keys (the key position is 0 when there are none). */
  predicate InBounds(s: Rotation, keyCount: nat)
  {
    (if keyCount == 0 then s.keyIndex == 0 else s.keyIndex < keyCount) && s.modelIndex < |MODEL_PRIORITY|
  }

  /**
   * The catch block's effect on `s`, for a call made with key `keyIndex` and
   * `model` that failed with `message`, among `keyCount` keys:
   * - model error: the model cools down for 5 minutes; move to the next
   *   model, or from the last model back to the first with the key rotated;
   * - rate limit: the key cools down for 1 minute and the model for 30 s;
   *   rotate the key, else the model, else pause 10 s and go back to the
   *   first model;
   * - anything else: no cooldown, only the key is rotated.
   */
  function AfterFailure(s: Rotation, keyCount: nat, keyIndex: nat, model: Model, message: string): (r: Rotation)
    ensures r.keyCooldowns == if Classify(message) == RateLimited
                              then s.keyCooldowns[keyIndex := s.now + KEY_RATE_LIMIT_COOLDOWN]
                              else s.keyCooldowns
    ensures r.now >= s.now
  {
    match Classify(message)
    case ModelUnavailable => AfterModelError(s, keyCount, model)
    case RateLimited => AfterRateLimit(s, keyCount, keyIndex, model)
    case Unclassified => AfterOtherError(s, keyCount)
  }

  /** Model error: the model cools down for 5 minutes; next model, or from the last one back to the first with the key rotated. */
  function AfterModelError(s: Rotation, keyCount: nat, model: Model): Rotation
  {
    var cooled := s.(modelCooldowns := s.modelCooldowns[model := s.now + MODEL_ERROR_COOLDOWN]);
    if s.modelIndex < |MODEL_PRIORITY| - 1 then cooled.(modelIndex := s.modelIndex + 1)
    else cooled.(modelIndex := 0, keyIndex := NextKey(s.keyIndex, keyCount))
  }

  /** Rate limit: key and model cool down; rotate the key, else the model, else pause and go back to the first model. */
  function AfterRateLimit(s: Rotation, keyCount: nat, keyIndex: nat, model: Model): Rotation
  {
    var cooled := s.(keyCooldowns := s.keyCooldowns[keyIndex := s.now + KEY_RATE_LIMIT_COOLDOWN],
                     modelCooldowns := s.modelCooldowns[model := s.now + MODEL_RATE_LIMIT_COOLDOWN]);
    if keyCount > 1 then cooled.(keyIndex := NextKey(s.keyIndex, keyCount))
    else if s.modelIndex < |MODEL_PRIORITY| - 1 then cooled.(modelIndex := s.modelIndex + 1)
    else cooled.(modelIndex := 0, now := s.now + EXHAUSTED_BACKOFF)
  }

  /** Any other error: no cooldown, only the key is rotated. */
  function AfterOtherError(s: Rotation, keyCount: nat): Rotation
  {
    s.(keyIndex := NextKey(s.keyIndex, keyCount))
  }

  /** The catch block keeps both positions in bounds. */
  lemma AfterFailureInBounds(s: Rotation, keyCount: nat, keyIndex: nat, model: Model, message: string)
    requires InBounds(s, keyCount)
    ensures InBounds(AfterFailure(s, keyCount, keyIndex, model, message), keyCount)
  {
  }

  /**
   * The catch block moves the (key, model) positions it leaves behind,
   * except when an unclassified error finds a single key (or none): then
   * both positions stay where they were. This is about the positions only;
   * the next attempt's search from them may still skip keys or models that
   * are cooling down, and so may land on any pair.
   */
  lemma {:induction false} AfterFailureMovesOn(s: Rotation, keyCount: nat, keyIndex: nat, model: Model, message: string)
    requires InBounds(s, keyCount)
    ensures var r := AfterFailure(s, keyCount, keyIndex, model, message);
            (r.keyIndex, r.modelIndex) == (s.keyIndex, s.modelIndex) <==> Classify(message) == Unclassified && keyCount <= 1
  {
    if keyCount > 1 {
      NextOnRing(s.keyIndex, keyCount);
    }
  }

  /** The catch block waits only when a rate limit leaves neither another key nor a lower model, and then for 10 s. */
  lemma AfterFailureClock(s: Rotation, keyCount: nat, keyIndex: nat, model: Model, message: string)
    ensures var r := AfterFailure(s, keyCount, keyIndex, model, message);
            r.now != s.now <==> Classify(message) == RateLimited && keyCount <= 1 && s.modelIndex >= |MODEL_PRIORITY| - 1
    ensures var r := AfterFailure(s, keyCount, keyIndex, model, message);
            r.now == s.now || r.now == s.now + EXHAUSTED_BACKOFF
  {
  }

  /** A model error cools the failing model for 5 minutes and leaves the key ledger alone; a rate limit cools the model for 30 s. */
  lemma AfterFailureModelLedger(s: Rotation, keyCount: nat, keyIndex: nat, model: Model, message: string)
    ensures var r := AfterFailure(s, keyCount, keyIndex, model, message);
            Classify(message) == ModelUnavailable ==>
              r.keyCooldowns == s.keyCooldowns && r.modelCooldowns == s.modelCooldowns[model := s.now + MODEL_ERROR_COOLDOWN]
    ensures var r := AfterFailure(s, keyCount, keyIndex, model, message);
            Classify(message) == RateLimited ==> r.modelCooldowns == s.modelCooldowns[model := s.now + MODEL_RATE_LIMIT_COOLDOWN]
    ensures var r := AfterFailure(s, keyCount, keyIndex, model, message);
            Classify(message) == Unclassified ==> r == s.(keyIndex := NextKey(s.keyIndex, keyCount))
  {
  }

  /** Every call in `cs` used a configured key and got the answer `backend` gives for `prompt`. */
  ghost predicate AnsweredBy(cs: seq<Call>, keys: seq<string>, prompt: string, backend: Backend)
  {
    forall i :: 0 <= i < |cs| ==> Answered(cs, i, keys, prompt, backend)
  }

  /** Call `i` of `cs` used a configured key and got the answer `backend` gives for `prompt`. */
  ghost predicate Answered(cs: seq<Call>, i: nat, keys: seq<string>, prompt: string, backend: Backend)
    requires i < |cs|
  {
    cs[i].keyIndex < |keys| && cs[i].reply == backend(keys[cs[i].keyIndex], cs[i].model.Name(), prompt, cs[i].time)
  }

  /** Every call in `cs` failed. */
  ghost predicate AllFailed(cs: seq<Call>)
  {
    forall i :: 0 <= i < |cs| ==> Failed(cs, i)
  }

  /** Call `i` of `cs` failed. */
  predicate Failed(cs: seq<Call>, i: nat)
    requires i < |cs|
  {
    cs[i].reply.Err?
  }

  /** Every call in `cs` but the last failed, and the last one succeeded with a reply that cleans to `text`. */
  ghost predicate SucceededLast(cs: seq<Call>, text: string)
  {
    |cs| > 0 && (forall i :: 0 <= i < |cs| - 1 ==> Failed(cs, i))
    && cs[|cs| - 1].reply.Ok? && text == CleanReply(cs[|cs| - 1].reply.text)
  }

  /**
   * The calls `made` for `prompt` produced `text`: all answered by `backend`,
   * the last one succeeding with `text` or all failing without text, and at
   * least one of them when keys are configured.
   */
  ghost predicate Outcome(made: seq<Call>, text: Option<string>, keys: seq<string>, prompt: string, backend: Backend)
  {
    var outcome :=
      AnsweredBy(made, keys, prompt, backend)
      && (text.Some? ==> SucceededLast(made, text.value))
      && (text.None? ==> AllFailed(made))
      && (|keys| > 0 ==> made != []);
    outcome
  }

  /** Extending a log by one run and then another is extending it by both runs at once. */
  lemma AppendAssoc<T>(a: seq<T>, b: seq<T>, c: seq<T>)
    ensures (a + b) + c == a + (b + c)
  {
  }

  /** Both properties of a run of calls carry over to the run extended by further calls. */
  lemma CallRunsAppend(a: seq<Call>, b: seq<Call>, keys: seq<string>, prompt: string, backend: Backend)
    ensures AnsweredBy(a, keys, prompt, backend) && AnsweredBy(b, keys, prompt, backend) ==> AnsweredBy(a + b, keys, prompt, backend)
    ensures AllFailed(a) && AllFailed(b) ==> AllFailed(a + b)
  {
    var ab := a + b;
    forall i | 0 <= i < |ab|
      ensures AnsweredBy(a, keys, prompt, backend) && AnsweredBy(b, keys, prompt, backend) ==> Answered(ab, i, keys, prompt, backend)
      ensures AllFailed(a) && AllFailed(b) ==> Failed(ab, i)
    {
      var (run, j) := if i < |a| then (a, i) else (b, i - |a|);
      assert ab[i] == run[j];
      if AnsweredBy(run, keys, prompt, backend) {
        assert Answered(run, j, keys, prompt, backend);
      }
      if AllFailed(run) {
        assert Failed(run, j);
      }
    }
  }

  /** Failed calls followed by a run that succeeded last make a run that succeeded last. */
  lemma SucceededAfter(a: seq<Call>, b: seq<Call>, text: string)
    requires AllFailed(a) && SucceededLast(b, text)
    ensures SucceededLast(a + b, text)
  {
    var ab := a + b;
    forall i | 0 <= i < |ab| - 1
      ensures Failed(ab, i)
    {
      if i < |a| {
        assert ab[i] == a[i] && Failed(a, i);
      } else {
        assert ab[i] == b[i - |a|] && Failed(b, i - |a|);
      }
    }
  }

  /** Each rate-limited call has a ledger expiry at least a full key cooldown after it. */
  ghost predicate LedgerCovers(calls: seq<Call>, ledger: map<nat, int>)
  {
    forall i :: 0 <= i < |calls| ==> Covered(calls, ledger, i)
  }

  /** When call `i` was rate limited, the ledger expiry of its key is at least a full key cooldown after it. */
  ghost predicate Covered(calls: seq<Call>, ledger: map<nat, int>, i: nat)
    requires i < |calls|
  {
    RateLimitedCall(calls[i]) ==> calls[i].time + KEY_RATE_LIMIT_COOLDOWN <= Expiry(ledger, calls[i].keyIndex)
  }

  /** Call `i` was made with one of the first `keyCount` keys. */
  ghost predicate KeyInRange(calls: seq<Call>, i: nat, keyCount: nat)
    requires i < |calls|
  {
    calls[i].keyIndex < keyCount
  }

  /** Call `j` is not made with the key of an earlier rate-limited call `i` before that key's cooldown has passed. */
  ghost predicate BackedOff(calls: seq<Call>, i: nat, j: nat)
    requires i < j < |calls|
  {
    RateLimitedCall(calls[i]) && calls[j].keyIndex == calls[i].keyIndex ==>
      calls[i].time + KEY_RATE_LIMIT_COOLDOWN <= calls[j].time
  }

  /** A key that was rate limited is not called again until its cooldown has passed. */
  ghost predicate KeyBackoffKept(calls: seq<Call>)
  {
    forall i, j :: 0 <= i < j < |calls| ==> BackedOff(calls, i, j)
  }

  /** The time between call `i` and the one before it. */
  function Gap(calls: seq<Call>, i: nat): int
    requires 0 < i < |calls|
  {
    calls[i].time - calls[i - 1].time
  }

  /** Each call is made at least `MIN_REQUEST_INTERVAL` after the one before it. */
  ghost predicate Spaced(calls: seq<Call>)
  {
    forall i :: 0 < i < |calls| ==> Gap(calls, i) >= MIN_REQUEST_INTERVAL
  }

  /** Spacing between neighbours spaces every pair: any two calls are at least the interval apart. */
  lemma {:induction false} SpacedPairwise(calls: seq<Call>)
    requires Spaced(calls)
    ensures forall i, j :: 0 <= i < j < |calls| ==> calls[i].time + MIN_REQUEST_INTERVAL <= calls[j].time
    decreases |calls|
  {
    if |calls| > 1 {
      var init := calls[..|calls| - 1];
      assert Spaced(init) by {
        forall i | 0 < i < |init|
          ensures Gap(init, i) >= MIN_REQUEST_INTERVAL
        {
          assert Gap(init, i) == Gap(calls, i);
        }
      }
      SpacedPairwise(init);
      forall i, j | 0 <= i < j < |calls|
        ensures calls[i].time + MIN_REQUEST_INTERVAL <= calls[j].time
      {
        if j < |calls| - 1 {
          assert init[i] == calls[i] && init[j] == calls[j];
        } else {
          assert Gap(calls, j) >= MIN_REQUEST_INTERVAL;
          if i < j - 1 {
            assert init[i] == calls[i] && init[j - 1] == calls[j - 1];
          }
        }
      }
    }
  }

  /** A call with one of the first `keyCount` keys extends a log of such calls. */
  lemma KeysAppend(calls: seq<Call>, c: Call, keyCount: nat)
    requires forall i :: 0 <= i < |calls| ==> KeyInRange(calls, i, keyCount)
    requires c.keyIndex < keyCount
    ensures forall i :: 0 <= i < |calls| + 1 ==> KeyInRange(calls + [c], i, keyCount)
  {
    var all := calls + [c];
    forall i | 0 <= i < |all|
      ensures KeyInRange(all, i, keyCount)
    {
      if i < |calls| {
        assert all[i] == calls[i] && KeyInRange(calls, i, keyCount);
      }
    }
  }

  /** A call made no earlier than the interval after the last one extends a spaced log. */
  lemma SpacedAppend(calls: seq<Call>, c: Call)
    requires Spaced(calls)
    requires |calls| > 0 ==> calls[|calls| - 1].time + MIN_REQUEST_INTERVAL <= c.time
    ensures Spaced(calls + [c])
  {
    var all := calls + [c];
    forall i | 0 < i < |all|
      ensures Gap(all, i) >= MIN_REQUEST_INTERVAL
    {
      if i < |calls| {
        assert Gap(all, i) == Gap(calls, i);
      }
    }
  }

  /** Calling a key whose ledger entry has expired keeps the back-off. */
  lemma {:induction false} BackoffAfterCall(calls: seq<Call>, ledger: map<nat, int>, c: Call)
    requires LedgerCovers(calls, ledger) && KeyBackoffKept(calls)
    requires Expiry(ledger, c.keyIndex) <= c.time
    ensures KeyBackoffKept(calls + [c])
  {
    var all := calls + [c];
    forall i, j | 0 <= i < j < |all|
      ensures BackedOff(all, i, j)
    {
      assert all[i] == calls[i] && Covered(calls, ledger, i);
      if j < |calls| {
        assert all[j] == calls[j] && BackedOff(calls, i, j);
      }
    }
  }

  /**
   * The catch block's ledger update keeps the ledger covering: a rate-limited
   * call puts its key a full cooldown past the call time, which is not before
   * any earlier call; any other failure leaves the ledger alone.
   */
  lemma {:induction false} LedgerAfterFailure(calls: seq<Call>, ledger: map<nat, int>, c: Call, updated: map<nat, int>)
    requires LedgerCovers(calls, ledger)
    requires Spaced(calls) && (|calls| > 0 ==> calls[|calls| - 1].time <= c.time)
    requires updated == if RateLimitedCall(c) then ledger[c.keyIndex := c.time + KEY_RATE_LIMIT_COOLDOWN] else ledger
    ensures LedgerCovers(calls + [c], updated)
  {
    SpacedPairwise(calls);
    var all := calls + [c];
    forall i | 0 <= i < |all|
      ensures Covered(all, updated, i)
    {
      if i < |calls| {
        assert all[i] == calls[i] && Covered(calls, ledger, i);
      }
    }
  }

  /** Position of `k` in a circular scan of `n` keys that starts at `start`. */
  function CircularOffset(start: nat, k: nat, n: nat): (d: nat)
    requires start < n && k < n
    ensures d < n
  {
    if start <= k then k - start else k + n - start
  }

  /** The `j`-th position of the scan, `(start + j) % n`, sits at offset `j`. */
  lemma OffsetOfStep(start: nat, j: nat, n: nat)
    requires start < n && j < n
    ensures (start + j) % n < n && CircularOffset(start, (start + j) % n, n) == j
  {
    ModWrap(start + j, n);
  }

  /** Offsets identify keys: a key's offset leads back to it. */
  lemma StepOfOffset(start: nat, k: nat, n: nat)
    requires start < n && k < n
    ensures (start + CircularOffset(start, k, n)) % n == k
  {
    ModWrap(start + CircularOffset(start, k, n), n);
  }

  /** The priority of a model: its position in `MODEL_PRIORITY`. */
  function Rank(m: Model): (i: nat)
    ensures i < |MODEL_PRIORITY| && MODEL_PRIORITY[i] == m
  {
    match m
    case Gemini20Flash => 0
    case Gemini15Flash => 1
    case Gemini25FlashLite => 2
    case Gemini15Flash8b => 3
  }

  /** Each position of `MODEL_PRIORITY` is the rank of the model there. */
  lemma RankOfPosition(i: nat)
    requires i < |MODEL_PRIORITY|
    ensures Rank(MODEL_PRIORITY[i]) == i
  {
  }

  /** When a throttled request goes out: at once, or when `MIN_REQUEST_INTERVAL` has passed since the last one. */
  function ThrottledTime(now: int, last: int): int
  {
    if now < last + MIN_REQUEST_INTERVAL then last + MIN_REQUEST_INTERVAL else now
  }

  /**
   * `wait` is the shortest time from `from` until an entry of `cooldowns` that
   * is still in the future expires, or 0 when no entry is in the future.
   */
  ghost predicate IsMinWait<K>(cooldowns: map<K, int>, from: int, wait: int)
  {
    wait >= 0
    && (wait == 0 <==> forall k :: k in cooldowns ==> cooldowns[k] <= from)
    && (wait > 0 ==> exists k :: k in cooldowns && cooldowns[k] - from == wait)
    && (forall k :: k in cooldowns && cooldowns[k] > from ==> wait <= cooldowns[k] - from)
  }

  /** The shortest wait is determined by the ledger and the clock. */
  lemma MinWaitUnique<K>(cooldowns: map<K, int>, from: int, w1: int, w2: int)
    requires IsMinWait(cooldowns, from, w1) && IsMinWait(cooldowns, from, w2)
    ensures w1 == w2
  {
    if w1 > 0 && w2 > 0 {
      var k1 :| k1 in cooldowns && cooldowns[k1] - from == w1;
      var k2 :| k2 in cooldowns && cooldowns[k2] - from == w2;
    }
  }

  /** The key at position `k` may be used at the time of `s`. */
  predicate KeyFree(s: Rotation, k: nat)
  {
    Expiry(s.keyCooldowns, k) <= s.now
  }

  /** The model at priority `m` may be used at the time of `s`. */
  predicate ModelFree(s: Rotation, m: nat)
    requires m < |MODEL_PRIORITY|
  {
    Expiry(s.modelCooldowns, MODEL_PRIORITY[m]) <= s.now
  }

  /** One of `keyCount` keys is free. */
  predicate AnyKeyFree(s: Rotation, keyCount: nat)
  {
    exists k :: 0 <= k < keyCount && KeyFree(s, k)
  }

  /** One of the models is free. */
  predicate AnyModelFree(s: Rotation)
  {
    exists m :: 0 <= m < |MODEL_PRIORITY| && ModelFree(s, m)
  }

  /** Key `k` is the first free one of a circular scan of `keyCount` keys from the current key of `s`. */
  predicate FirstFreeKey(s: Rotation, keyCount: nat, k: nat)
  {
    s.keyIndex < keyCount && k < keyCount && KeyFree(s, k)
    && forall j :: 0 <= j < keyCount && CircularOffset(s.keyIndex, j, keyCount) < CircularOffset(s.keyIndex, k, keyCount)
                   ==> !KeyFree(s, j)
  }

  /** The model at priority `m` is the most capable free model. */
  predicate FirstFreeModel(s: Rotation, m: nat)
  {
    m < |MODEL_PRIORITY| && ModelFree(s, m) && forall j :: 0 <= j < m ==> !ModelFree(s, j)
  }

  /** Which keys and models are free does not depend on the current positions. */
  lemma FreedomIgnoresPositions(s: Rotation, keyIndex: nat, modelIndex: nat, keyCount: nat)
    ensures var t := s.(keyIndex := keyIndex, modelIndex := modelIndex);
      (AnyKeyFree(t, keyCount) <==> AnyKeyFree(s, keyCount)) && (AnyModelFree(t) <==> AnyModelFree(s))
      && (forall m :: FirstFreeModel(t, m) <==> FirstFreeModel(s, m))
      && (keyIndex == s.keyIndex ==> forall k :: FirstFreeKey(t, keyCount, k) <==> FirstFreeKey(s, keyCount, k))
  {
    var t := s.(keyIndex := keyIndex, modelIndex := modelIndex);
    assert forall k :: KeyFree(t, k) <==> KeyFree(s, k);
    assert forall m :: 0 <= m < |MODEL_PRIORITY| ==> (ModelFree(t, m) <==> ModelFree(s, m));
  }

  /**
   * The rotation state after a pass that made call `c`: the key and model of
   * the call selected, the clock and the last request time at the dispatch
   * time, then the catch block when the call failed.
   */
  function PassState(s: Rotation, keyCount: nat, c: Call): Rotation
  {
    var picked := s.(keyIndex := c.keyIndex, modelIndex := Rank(c.model), now := c.time, last := c.time);
    if c.reply.Ok? then picked else AfterFailure(picked, keyCount, c.keyIndex, c.model, c.reply.message)
  }

  /**
   * One pass of the retry loop, from rotation state `s` with `keyCount` keys
   * to state `t`, making the calls `made`:
   * - with a free key and a free model it makes one call, with the first free
   *   key of the scan from the current one and the most capable free model,
   *   at the throttled time after the last request, and ends in `PassState`;
   * - with no free key it only waits for the shortest key cooldown;
   * - with a free key but no free model it moves to that key, waits for the
   *   shortest model cooldown, clears the model ledger and goes back to the
   *   best model.
   */
  ghost predicate Pass(s: Rotation, keyCount: nat, made: seq<Call>, t: Rotation)
  {
    var pass :=
      |made| <= 1
      && (|made| == 1 <==> AnyKeyFree(s, keyCount) && AnyModelFree(s))
      && (|made| == 1 ==>
            FirstFreeKey(s, keyCount, made[0].keyIndex) && FirstFreeModel(s, Rank(made[0].model))
            && made[0].time == ThrottledTime(s.now, s.last) && t == PassState(s, keyCount, made[0]))
      && (!AnyKeyFree(s, keyCount) ==>
            IsMinWait(s.keyCooldowns, s.now, t.now - s.now) && t == s.(now := t.now))
      && (made == [] && AnyKeyFree(s, keyCount) ==>
            IsMinWait(s.modelCooldowns, s.now, t.now - s.now) && FirstFreeKey(s, keyCount, t.keyIndex)
            && t == s.(keyIndex := t.keyIndex, modelIndex := 0, modelCooldowns := map[], now := t.now));
    pass
  }

  /**
   * A pass makes a call exactly when a key and a model are free, and then
   * uses the first of each, at the throttled time, which becomes the last
   * request time; a pass without a call keeps the last request time.
   */
  lemma PassCall(s: Rotation, keyCount: nat, made: seq<Call>, t: Rotation)
    requires Pass(s, keyCount, made, t)
    ensures |made| == 1 <==> AnyKeyFree(s, keyCount) && AnyModelFree(s)
    ensures |made| == 1 ==> FirstFreeKey(s, keyCount, made[0].keyIndex) && FirstFreeModel(s, Rank(made[0].model))
    ensures |made| == 1 ==> made[0].time == ThrottledTime(s.now, s.last) && t.last == made[0].time
    ensures made == [] ==> t.last == s.last
  {
  }

  /**
   * A pass without a call prepares the next one: afterwards a key is free,
   * and when a key was already free, every model is free too. So of three
   * passes in a row, the third makes a call at the latest.
   */
  lemma PassProgress(s: Rotation, keyCount: nat, made: seq<Call>, t: Rotation)
    requires Pass(s, keyCount, made, t)
    requires keyCount > 0 && 0 <= s.now && forall k :: k in s.keyCooldowns ==> k < keyCount
    ensures made == [] ==> AnyKeyFree(t, keyCount)
    ensures made == [] && AnyKeyFree(s, keyCount) ==> AnyModelFree(t)
  {
    if made == [] && !AnyKeyFree(s, keyCount) {
      var wait := t.now - s.now;
      if wait > 0 {
        var k :| k in s.keyCooldowns && s.keyCooldowns[k] - s.now == wait;
        assert KeyFree(t, k);
      } else {
        assert KeyFree(t, 0);
      }
    } else if made == [] {
      assert KeyFree(t, t.keyIndex);
      assert ModelFree(t, 0);
    }
  }

  /**
   * The retry loop's progress after `attempts` passes from `start`, now in
   * state `cur`, where `first` is the first call made so far, if any: without
   * a call there were at most two passes, the first of them found no free key
   * or no free model, and they left a key (after two passes, also a model)
   * free; the first call, when `start` had a free key and a free model, used
   * the first of each.
   */
  ghost predicate Progress(start: Rotation, keyCount: nat, cur: Rotation, first: Option<Call>, attempts: nat)
  {
    var progress :=
      (attempts == 0 ==> cur == start && first.None?)
      && (first.None? && attempts >= 1 ==>
            attempts <= 2 && AnyKeyFree(cur, keyCount) && !(AnyKeyFree(start, keyCount) && AnyModelFree(start)))
      && (first.None? && attempts == 2 ==> AnyModelFree(cur))
      && (first.Some? && AnyKeyFree(start, keyCount) && AnyModelFree(start) ==>
            FirstFreeKey(start, keyCount, first.value.keyIndex) && FirstFreeModel(start, Rank(first.value.model)));
    progress
  }

  /** The first call of a log extended by the calls `step`, given the log's first call `first`. */
  function FirstAfter(first: Option<Call>, step: seq<Call>): Option<Call>
  {
    if first.None? && step != [] then Some(step[0]) else first
  }

  /** One more pass keeps the loop's progress. */
  lemma ProgressStep(start: Rotation, keyCount: nat, before: Rotation, first: Option<Call>, attempts: nat,
                     step: seq<Call>, after: Rotation)
    requires Progress(start, keyCount, before, first, attempts)
    requires Pass(before, keyCount, step, after)
    requires keyCount > 0 && 0 <= before.now && forall k :: k in before.keyCooldowns ==> k < keyCount
    ensures Progress(start, keyCount, after, FirstAfter(first, step), attempts + 1)
  {
    PassProgress(before, keyCount, step, after);
    PassCall(before, keyCount, step, after);
  }

  /** Three passes make a call at the latest, and the first call is the one `Progress` describes. */
  lemma ProgressCalls(start: Rotation, keyCount: nat, cur: Rotation, first: Option<Call>, attempts: nat)
    requires Progress(start, keyCount, cur, first, attempts)
    requires attempts > 2 || first.Some?
    ensures first.Some?
    ensures AnyKeyFree(start, keyCount) && AnyModelFree(start) ==>
      FirstFreeKey(start, keyCount, first.value.keyIndex) && FirstFreeModel(start, Rank(first.value.model))
  {
  }

  /** The calls of a run of passes, pass after pass. */
  function Concat(steps: seq<seq<Call>>): seq<Call>
  {
    if steps == [] then [] else Concat(steps[..|steps| - 1]) + steps[|steps| - 1]
  }

  /**
   * A run of passes with `keyCount` keys: the `i`-th pass goes from rotation
   * state `trace[i]` to `trace[i + 1]` and makes the calls `steps[i]`.
   */
  ghost predicate Passes(keyCount: nat, trace: seq<Rotation>, steps: seq<seq<Call>>)
    decreases |steps|
  {
    |trace| == |steps| + 1
    && (steps != [] ==>
          Passes(keyCount, trace[..|steps|], steps[..|steps| - 1])
          && Pass(trace[|steps| - 1], keyCount, steps[|steps| - 1], trace[|steps|]))
  }

  /** Every pass of a run goes from its state in the trace to the next one. */
  lemma {:induction false} PassesEach(keyCount: nat, trace: seq<Rotation>, steps: seq<seq<Call>>)
    requires Passes(keyCount, trace, steps)
    ensures forall i :: 0 <= i < |steps| ==> Pass(trace[i], keyCount, steps[i], trace[i + 1])
    decreases |steps|
  {
    if steps != [] {
      var n := |steps| - 1;
      var earlier, before := trace[..n + 1], steps[..n];
      PassesEach(keyCount, earlier, before);
      forall i | 0 <= i < n
        ensures Pass(trace[i], keyCount, steps[i], trace[i + 1])
      {
        assert earlier[i] == trace[i] && before[i] == steps[i] && earlier[i + 1] == trace[i + 1];
      }
    }
  }

  /** A run of passes extended by one more pass from where it ended. */
  lemma PassesAppend(keyCount: nat, trace: seq<Rotation>, steps: seq<seq<Call>>, step: seq<Call>, next: Rotation)
    requires Passes(keyCount, trace, steps) && Pass(trace[|steps|], keyCount, step, next)
    ensures Passes(keyCount, trace + [next], steps + [step])
    ensures Concat(steps + [step]) == Concat(steps) + step
  {
    assert (steps + [step])[..|steps|] == steps;
    assert (trace + [next])[..|steps| + 1] == trace;
  }

  /** In a run of passes every call goes out at the throttled time after the last request before its pass. */
  lemma PassesThrottled(keyCount: nat, trace: seq<Rotation>, steps: seq<seq<Call>>)
    requires Passes(keyCount, trace, steps)
    ensures forall i :: 0 <= i < |steps| && steps[i] != [] ==>
      steps[i][0].time == ThrottledTime(trace[i].now, trace[i].last)
  {
    PassesEach(keyCount, trace, steps);
  }

  /** After a run of passes the last request time is that of the run's last call, or the start's when it made none. */
  lemma {:induction false} PassesLastRequest(keyCount: nat, trace: seq<Rotation>, steps: seq<seq<Call>>)
    requires Passes(keyCount, trace, steps)
    ensures var made := Concat(steps);
      trace[|steps|].last == if made == [] then trace[0].last else made[|made| - 1].time
    decreases |steps|
  {
    if steps != [] {
      var n := |steps| - 1;
      var earlier := trace[..n + 1];
      PassesLastRequest(keyCount, earlier, steps[..n]);
      assert earlier[0] == trace[0] && earlier[n] == trace[n];
      PassCall(trace[n], keyCount, steps[n], trace[n + 1]);
    }
  }

  /** `trace`/`steps` is a run of `rounds` passes from `start` to `cur` that made the calls `made`. */
  ghost predicate PassRun(keyCount: nat, start: Rotation, cur: Rotation, made: seq<Call>, rounds: nat,
                          trace: seq<Rotation>, steps: seq<seq<Call>>)
  {
    Passes(keyCount, trace, steps) && |steps| == rounds && made == Concat(steps)
    && trace[0] == start && trace[rounds] == cur
  }

  /** A run of passes extended by one more pass is a run of passes. */
  lemma PassRunStep(keyCount: nat, start: Rotation, before: Rotation, after: Rotation, made: seq<Call>, rounds: nat,
                    trace: seq<Rotation>, steps: seq<seq<Call>>, step: seq<Call>)
    requires PassRun(keyCount, start, before, made, rounds, trace, steps) && Pass(before, keyCount, step, after)
    ensures PassRun(keyCount, start, after, made + step, rounds + 1, trace + [after], steps + [step])
  {
    PassesAppend(keyCount, trace, steps, step, after);
  }

  /**
   * What holds of the retry loop after `rounds` passes from `start`, in
   * state `cur`: the calls `made` are those of the run of passes
   * `trace`/`steps`, all answered by `backend`; they all failed, or `text`
   * is the cleaned reply of the last one, which the last pass made; `first`
   * is the first of them, and the loop's progress is kept.
   */
  ghost predicate LoopFacts(keys: seq<string>, prompt: string, backend: Backend, start: Rotation, cur: Rotation,
                            made: seq<Call>, first: Option<Call>, rounds: nat,
                            trace: seq<Rotation>, steps: seq<seq<Call>>, text: Option<string>)
  {
    var facts :=
      PassRun(|keys|, start, cur, made, rounds, trace, steps)
      && AnsweredBy(made, keys, prompt, backend)
      && (text.None? ==> AllFailed(made))
      && (text.Some? ==> SucceededLast(made, text.value) && rounds > 0 && steps[rounds - 1] != [])
      && first == (if made == [] then None else Some(made[0]))
      && Progress(start, |keys|, cur, first, rounds);
    facts
  }

  /** One more pass, from `before` to `after` with the calls `step`, keeps what holds of the loop. */
  lemma LoopStep(keys: seq<string>, prompt: string, backend: Backend, start: Rotation, before: Rotation, after: Rotation,
                 made: seq<Call>, first: Option<Call>, rounds: nat, trace: seq<Rotation>, steps: seq<seq<Call>>,
                 step: seq<Call>, text: Option<string>)
    requires LoopFacts(keys, prompt, backend, start, before, made, first, rounds, trace, steps, None)
    requires |keys| > 0 && 0 <= before.now && forall k :: k in before.keyCooldowns ==> k < |keys|
    requires Pass(before, |keys|, step, after) && AnsweredBy(step, keys, prompt, backend)
    requires text.None? ==> AllFailed(step)
    requires text.Some? ==> |step| == 1 && step[0].reply.Ok? && text.value == CleanReply(step[0].reply.text)
    ensures LoopFacts(keys, prompt, backend, start, after, made + step, FirstAfter(first, step), rounds + 1,
                      trace + [after], steps + [step], text)
  {
    PassRunStep(|keys|, start, before, after, made, rounds, trace, steps, step);
    ProgressStep(start, |keys|, before, first, rounds, step, after);
    CallRunsAppend(made, step, keys, prompt, backend);
    if text.Some? {
      SucceededAfter(made, step, text.value);
    }
  }

  /**
   * When the loop stops, after the full budget or at a success, the run of
   * passes made at least one call, and the first uses the first free key and
   * model of the start when there are both.
   */
  lemma LoopDone(keys: seq<string>, prompt: string, backend: Backend, start: Rotation, cur: Rotation,
                 made: seq<Call>, first: Option<Call>, attempts: nat,
                 trace: seq<Rotation>, steps: seq<seq<Call>>, text: Option<string>)
    requires LoopFacts(keys, prompt, backend, start, cur, made, first, attempts, trace, steps, text)
    requires |keys| > 0 && attempts <= MaxAttempts(|keys|) && (attempts == MaxAttempts(|keys|) || text.Some?)
    ensures AnsweredBy(made, keys, prompt, backend) && 1 <= |made|
    ensures text.Some? ==> SucceededLast(made, text.value)
    ensures text.None? ==> AllFailed(made) && attempts == MaxAttempts(|keys|)
    ensures Passes(|keys|, trace, steps) && |steps| == attempts && made == Concat(steps)
    ensures trace[0] == start && trace[attempts] == cur
    ensures text.Some? ==> steps[attempts - 1] != []
    ensures AnyKeyFree(start, |keys|) && AnyModelFree(start) ==>
      FirstFreeKey(start, |keys|, made[0].keyIndex) && FirstFreeModel(start, Rank(made[0].model))
    ensures cur.last == made[|made| - 1].time
  {
    ProgressCalls(start, |keys|, cur, first, attempts);
    PassesLastRequest(|keys|, trace, steps);
  }

  class RotationManager {
    /** The configured API keys, fixed at start-up. */
    const keys: seq<string>
    var currentKeyIndex: nat
    var currentModelIndex: nat
    /** Expiry time by key position. */
    var keyCooldowns: map<nat, int>
    /** Expiry time by model. */
    var modelCooldowns: map<Model, int>
    var lastRequestTime: int
    /** The clock `Date.now()` reads; sleeping advances it. */
    var now: int
    /** Every call made to the generation SDK, oldest first. */
    ghost var calls: seq<Call>

    /**
     * The object invariant: both positions in bounds, the clock not behind
     * the last request, the key ledger about configured keys only, and every recorded call made with a configured key
     * and a listed model, at least `MIN_REQUEST_INTERVAL` after the one before.
     */
    ghost predicate Valid()
      reads this
    {
      PositionsValid() && LogValid() && KeyLedgerInRange() && 0 <= lastRequestTime <= now
    }

    /** Only configured keys have an entry in the key ledger. */
    predicate KeyLedgerInRange()
      reads this`keyCooldowns
    {
      forall k :: k in keyCooldowns ==> k < |keys|
    }

    /** Both positions are in bounds (the key position is 0 when there are no keys). */
    predicate PositionsValid()
      reads this`currentKeyIndex, this`currentModelIndex
    {
      (if |keys| == 0 then currentKeyIndex == 0 else currentKeyIndex < |keys|)
      && currentModelIndex < |MODEL_PRIORITY|
    }

    /** The log holds spaced calls made with configured keys, none after the last request. */
    ghost predicate LogValid()
      reads this`calls, this`lastRequestTime
    {
      (forall i :: 0 <= i < |calls| ==> KeyInRange(calls, i, |keys|))
      && Spaced(calls)
      && (|calls| > 0 ==> calls[|calls| - 1].time <= lastRequestTime)
    }

    /**
     * The rate-limit discipline: the key ledger remembers every rate-limited
     * call for a full key cooldown, and no key is called again before that.
     */
    ghost predicate RateLimitsHonoured()
      reads this`calls, this`keyCooldowns
    {
      LedgerCovers(calls, keyCooldowns) && KeyBackoffKept(calls)
    }

    /**
     * The state a request may start from: positions in bounds, the log well
     * formed, the rate limits honoured. Callers outside this class carry it
     * as one fact, hence the name bound to it.
     */
    ghost predicate Ready()
      reads this
    {
      var ready := Valid() && RateLimitsHonoured(); ready
    }

    /** A fresh manager: first key, best model, empty ledgers, no request yet. */
    constructor (keys: seq<string>, clock: int)
      requires clock >= 0
      ensures this.keys == keys && currentKeyIndex == 0 && currentModelIndex == 0
      ensures keyCooldowns == map[] && modelCooldowns == map[]
      ensures lastRequestTime == 0 && now == clock && calls == []
      ensures Valid() && RateLimitsHonoured()
    {
      this.keys := keys;
      currentKeyIndex := 0;
      currentModelIndex := 0;
      keyCooldowns := map[];
      modelCooldowns := map[];
      lastRequestTime := 0;
      now := clock;
      calls := [];
    }

    /** `getKey()`. */
    function Key(): (key: string)
      requires Valid() && |keys| > 0
      reads this
      ensures key in keys
    {
      keys[currentKeyIndex]
    }

    /** `getCurrentModel()`. */
    function CurrentModel(): (name: string)
      requires Valid()
      reads this
      ensures exists m :: m in MODEL_PRIORITY && m.Name() == name
    {
      assert MODEL_PRIORITY[currentModelIndex] in MODEL_PRIORITY;
      MODEL_PRIORITY[currentModelIndex].Name()
    }

    /** A `setTimeout` pause: the clock moves on by `ms`. */
    method Sleep(ms: nat)
      modifies this`now
      ensures now == old(now) + ms
    {
      now := now + ms;
    }

    /**
     * `findAvailableKey()`: scans the keys circularly from the current one and
     * moves to the first that is not cooling down. When every key is cooling
     * down it reports false and stays put.
     */
    method FindAvailableKey() returns (found: bool)
      requires PositionsValid()
      modifies this`currentKeyIndex
      ensures PositionsValid()
      ensures found <==> AnyKeyFree(old(Snapshot()), |keys|)
      ensures found ==> FirstFreeKey(old(Snapshot()), |keys|, currentKeyIndex)
      ensures !found ==> currentKeyIndex == old(currentKeyIndex)
    {
      var n := |keys|;
      var start := currentKeyIndex;
      ghost var s := Snapshot();
      for i := 0 to n
        invariant currentKeyIndex == start
        invariant forall k :: 0 <= k < n && CircularOffset(start, k, n) < i ==> !KeyFree(s, k)
      {
        var idx := (currentKeyIndex + i) % n;
        OffsetOfStep(start, i, n);
        if Expiry(keyCooldowns, idx) <= now {
          currentKeyIndex := idx;
          assert KeyFree(s, idx);
          return true;
        }
        forall k | 0 <= k < n && CircularOffset(start, k, n) == i
          ensures !KeyFree(s, k)
        {
          StepOfOffset(start, k, n);
        }
      }
      return false;
    }

    /**
     * `findAvailableModel()`: scans the models from the most capable and moves
     * to the first that is not cooling down, returning its name. When every
     * model is cooling down it returns null (`None`) and stays put.
     */
    method FindAvailableModel() returns (model: Option<Model>)
      requires PositionsValid()
      modifies this`currentModelIndex
      ensures PositionsValid()
      ensures model.Some? ==> model.value == MODEL_PRIORITY[currentModelIndex] && FirstFreeModel(old(Snapshot()), currentModelIndex)
      ensures model.None? <==> !AnyModelFree(old(Snapshot()))
      ensures model.None? ==> currentModelIndex == old(currentModelIndex)
    {
      for i := 0 to |MODEL_PRIORITY|
        invariant currentModelIndex == old(currentModelIndex)
        invariant forall m :: 0 <= m < i ==> !ModelFree(Snapshot(), m)
      {
        var candidate := MODEL_PRIORITY[i];
        if Expiry(modelCooldowns, candidate) <= now {
          assert FirstFreeModel(old(Snapshot()), i);
          currentModelIndex := i;
          return Some(candidate);
        }
      }
      return None;
    }

    /** `markKeyRateLimited(keyIndex, cooldownMs)`: the key's expiry becomes now + cooldown, replacing any earlier one. */
    method MarkKeyRateLimited(keyIndex: nat, cooldownMs: int)
      modifies this`keyCooldowns
      ensures keyCooldowns == old(keyCooldowns)[keyIndex := now + cooldownMs]
    {
      keyCooldowns := keyCooldowns[keyIndex := now + cooldownMs];
    }

    /** `markModelRateLimited(modelName, cooldownMs)`: the model's expiry becomes now + cooldown, replacing any earlier one. */
    method MarkModelRateLimited(model: Model, cooldownMs: int)
      modifies this`modelCooldowns
      ensures modelCooldowns == old(modelCooldowns)[model := now + cooldownMs]
    {
      modelCooldowns := modelCooldowns[model := now + cooldownMs];
    }

    /** `rotateKey()`: with two or more keys, moves to the next one (wrapping) and reports true; otherwise changes nothing. */
    method RotateKey() returns (rotated: bool)
      requires PositionsValid()
      modifies this`currentKeyIndex
      ensures PositionsValid()
      ensures rotated <==> |keys| > 1
      ensures currentKeyIndex == NextKey(old(currentKeyIndex), |keys|)
    {
      if |keys| <= 1 {
        return false;
      }
      currentKeyIndex := (currentKeyIndex + 1) % |keys|;
      return true;
    }

    /** `rotateModel()`: moves to the next model unless already at the last one. */
    method RotateModel() returns (rotated: bool)
      requires PositionsValid()
      modifies this`currentModelIndex
      ensures PositionsValid()
      ensures rotated <==> old(currentModelIndex) < |MODEL_PRIORITY| - 1
      ensures currentModelIndex == if rotated then old(currentModelIndex) + 1 else old(currentModelIndex)
    {
      if currentModelIndex < |MODEL_PRIORITY| - 1 {
        currentModelIndex := currentModelIndex + 1;
        return true;
      }
      return false;
    }

    /**
     * `throttle()`: waits until `MIN_REQUEST_INTERVAL` has passed since the
     * last request (never longer), then stamps the new request time.
     */
    method Throttle()
      modifies this`now, this`lastRequestTime
      ensures now == ThrottledTime(old(now), old(lastRequestTime))
      ensures old(lastRequestTime) <= old(now) ==> now - old(now) <= MIN_REQUEST_INTERVAL
      ensures lastRequestTime == now
    {
      var elapsed := now - lastRequestTime;
      if elapsed < MIN_REQUEST_INTERVAL {
        Sleep(MIN_REQUEST_INTERVAL - elapsed);
      }
      lastRequestTime := now;
    }

    /**
     * `getMinCooldownWait(cooldowns)`: the shortest time until an entry that
     * is still in the future expires, or 0 when no entry is in the future.
     */
    method GetMinCooldownWait<K>(cooldowns: map<K, int>) returns (wait: int)
      ensures IsMinWait(cooldowns, now, wait)
    {
      var minWait: Option<int> := None;
      var remaining := cooldowns.Keys;
      while remaining != {}
        invariant remaining <= cooldowns.Keys
        invariant minWait.None? <==> forall k :: k in cooldowns && k !in remaining ==> cooldowns[k] <= now
        invariant minWait.Some? ==> minWait.value > 0
        invariant minWait.Some? ==> exists k :: k in cooldowns && k !in remaining && cooldowns[k] - now == minWait.value
        invariant minWait.Some? ==>
                    forall k :: k in cooldowns && k !in remaining && cooldowns[k] > now ==> minWait.value <= cooldowns[k] - now
        decreases remaining
      {
        var key :| key in remaining;
        var w := cooldowns[key] - now;
        if w > 0 && (minWait.None? || w < minWait.value) {
          minWait := Some(w);
        }
        remaining := remaining - {key};
      }
      wait := if minWait.None? then 0 else minWait.value;
    }

    /** The fields the catch block may change. */
    function Snapshot(): Rotation
      reads this`currentKeyIndex, this`currentModelIndex, this`keyCooldowns, this`modelCooldowns, this`now,
        this`lastRequestTime
    {
      Rotation(currentKeyIndex, currentModelIndex, keyCooldowns, modelCooldowns, now, lastRequestTime)
    }

    /** The model-error branch of the catch block. */
    method OnModelError(model: Model)
      requires PositionsValid()
      modifies this`modelCooldowns, this`currentKeyIndex, this`currentModelIndex
      ensures PositionsValid()
      ensures Snapshot() == AfterModelError(old(Snapshot()), |keys|, model)
    {
      MarkModelRateLimited(model, MODEL_ERROR_COOLDOWN);
      var movedOn := RotateModel();
      if !movedOn {
        currentModelIndex := 0;
        var _ := RotateKey();
      }
    }

    /** The rate-limit branch of the catch block. */
    method OnRateLimit(keyIndex: nat, model: Model)
      requires PositionsValid()
      modifies this`keyCooldowns, this`modelCooldowns, this`currentKeyIndex, this`currentModelIndex, this`now
      ensures PositionsValid()
      ensures Snapshot() == AfterRateLimit(old(Snapshot()), |keys|, keyIndex, model)
    {
      MarkKeyRateLimited(keyIndex, KEY_RATE_LIMIT_COOLDOWN);
      MarkModelRateLimited(model, MODEL_RATE_LIMIT_COOLDOWN);
      var keyRotated := RotateKey();
      if !keyRotated {
        var modelRotated := RotateModel();
        if !modelRotated {
          Sleep(EXHAUSTED_BACKOFF);
          currentModelIndex := 0;
        }
      }
    }

    /**
     * The catch block of one attempt: a call with key `keyIndex` and `model`
     * failed with `message`; the model-error test is made first.
     */
    method HandleFailure(keyIndex: nat, model: Model, message: string)
      requires Valid() && keyIndex < |keys|
      modifies this`keyCooldowns, this`modelCooldowns, this`currentKeyIndex, this`currentModelIndex, this`now
      ensures Valid()
      ensures Snapshot() == AfterFailure(old(Snapshot()), |keys|, keyIndex, model, message)
    {
      var isRateLimit := IsRateLimit(message);
      var isModelError := IsModelError(message);
      if isModelError {
        OnModelError(model);
      } else if isRateLimit {
        OnRateLimit(keyIndex, model);
      } else {
        var _ := RotateKey();
      }
    }

    /**
     * The catch block run for `made`, the failed call just logged after
     * `prior`: its effect is `AfterFailure`, and the ledger it updates still
     * covers every rate-limited call.
     */
    method Recover(model: Model, message: string, ghost prior: seq<Call>, ghost made: Call)
      requires Valid() && KeyBackoffKept(calls)
      requires calls == prior + [made] && made == Call(currentKeyIndex, model, now, Err(message))
      requires LedgerCovers(prior, keyCooldowns) && Spaced(prior)
      requires |prior| > 0 ==> prior[|prior| - 1].time <= now
      modifies this`keyCooldowns, this`modelCooldowns, this`currentKeyIndex, this`currentModelIndex, this`now
      ensures Valid() && RateLimitsHonoured()
      ensures Snapshot() == AfterFailure(old(Snapshot()), |keys|, old(currentKeyIndex), model, message)
    {
      ghost var ledger := keyCooldowns;
      assert KeyInRange(calls, |prior|, |keys|);
      HandleFailure(currentKeyIndex, model, message);
      LedgerAfterFailure(prior, ledger, made, keyCooldowns);
    }

    /**
     * One dispatch of an attempt: throttle, then call the SDK with the current
     * key and the given model, and record the call. The call is made with a
     * key that is not cooling down, so no key is called again before its
     * rate-limit cooldown has passed.
     */
    method Dispatch(prompt: string, model: Model, backend: Backend) returns (reply: Reply)
      requires Valid() && RateLimitsHonoured()
      requires |keys| > 0 && KeyFree(Snapshot(), currentKeyIndex)
      modifies this`now, this`lastRequestTime, this`calls
      ensures Valid() && KeyBackoffKept(calls)
      ensures calls == old(calls) + [Call(currentKeyIndex, model, now, reply)]
      ensures reply == backend(keys[currentKeyIndex], model.Name(), prompt, now)
      ensures now == ThrottledTime(old(now), old(lastRequestTime)) && lastRequestTime == now
    {
      Throttle();
      reply := backend(keys[currentKeyIndex], model.Name(), prompt, now);
      BackoffAfterCall(calls, keyCooldowns, Call(currentKeyIndex, model, now, reply));
      SpacedAppend(calls, Call(currentKeyIndex, model, now, reply));
      KeysAppend(calls, Call(currentKeyIndex, model, now, reply), |keys|);
      calls := calls + [Call(currentKeyIndex, model, now, reply)];
    }

    /**
     * No key is free: wait until the first key cooldown ends (no wait when
     * none is in the future). A key is free afterwards.
     */
    method WaitForKey()
      requires KeyLedgerInRange() && 0 <= now && |keys| > 0
      modifies this`now
      ensures IsMinWait(keyCooldowns, old(now), now - old(now))
      ensures AnyKeyFree(Snapshot(), |keys|)
    {
      var minWait := GetMinCooldownWait(keyCooldowns);
      if minWait > 0 {
        Sleep(minWait);
        ghost var k :| k in keyCooldowns && keyCooldowns[k] - old(now) == minWait;
        assert KeyFree(Snapshot(), k);
      } else {
        assert KeyFree(Snapshot(), 0);
      }
    }

    /**
     * No model is free: wait until the first model cooldown ends, then forget
     * every model cooldown and go back to the best model.
     */
    method WaitForModel()
      modifies this`now, this`modelCooldowns, this`currentModelIndex
      ensures IsMinWait(old(modelCooldowns), old(now), now - old(now))
      ensures modelCooldowns == map[] && currentModelIndex == 0
    {
      var minWait := GetMinCooldownWait(modelCooldowns);
      if minWait > 0 {
        Sleep(minWait);
      }
      modelCooldowns := map[];
      currentModelIndex := 0;
    }

    /**
     * The call of one attempt with the current key and `model`, and on
     * failure the catch block. `made` is the one call made.
     */
    method TryModel(prompt: string, model: Model, backend: Backend) returns (text: Option<string>, ghost made: Call)
      requires Valid() && RateLimitsHonoured()
      requires |keys| > 0 && KeyFree(Snapshot(), currentKeyIndex)
      modifies this`keyCooldowns, this`modelCooldowns, this`currentKeyIndex, this`currentModelIndex, this`now,
        this`lastRequestTime, this`calls
      ensures Valid() && RateLimitsHonoured()
      ensures calls == old(calls) + [made] && AnsweredBy([made], keys, prompt, backend)
      ensures made.keyIndex == old(currentKeyIndex) && made.model == model
      ensures made.time == ThrottledTime(old(now), old(lastRequestTime)) && lastRequestTime == made.time
      ensures text.None? <==> made.reply.Err?
      ensures text.Some? ==> text.value == CleanReply(made.reply.text)
      ensures made.reply.Ok? ==> Snapshot() == old(Snapshot()).(now := made.time, last := made.time)
      ensures made.reply.Err? ==>
        Snapshot() == AfterFailure(old(Snapshot()).(now := made.time, last := made.time), |keys|, made.keyIndex, model, made.reply.message)
    {
      ghost var prior := calls;
      var reply := Dispatch(prompt, model, backend);
      made := calls[|calls| - 1];
      assert made.keyIndex < |keys|;

      if reply.Ok? {
        LedgerAfterFailure(prior, keyCooldowns, made, keyCooldowns);
        text := Some(CleanReply(reply.text));
      } else {
        Recover(model, reply.message, prior, made);
        text := None;
      }
    }

    /**
     * The selection part of a pass: the first free key from the current one
     * and the most capable free model, or, when there is none, the wait for
     * a key (or for a model, clearing the model ledger afterwards). A key is
     * free when it returns.
     */
    method SelectOrWait() returns (model: Option<Model>)
      requires PositionsValid() && KeyLedgerInRange() && 0 <= now && |keys| > 0
      modifies this`now, this`currentKeyIndex, this`currentModelIndex, this`modelCooldowns
      ensures PositionsValid() && now >= old(now)
      ensures model.Some? <==> AnyKeyFree(old(Snapshot()), |keys|) && AnyModelFree(old(Snapshot()))
      ensures model.Some? ==>
        Snapshot() == old(Snapshot()).(keyIndex := currentKeyIndex, modelIndex := Rank(model.value))
        && FirstFreeKey(old(Snapshot()), |keys|, currentKeyIndex) && FirstFreeModel(old(Snapshot()), Rank(model.value))
      ensures model.Some? ==> KeyFree(Snapshot(), currentKeyIndex)
      ensures AnyKeyFree(Snapshot(), |keys|)
      ensures !AnyKeyFree(old(Snapshot()), |keys|) ==>
        IsMinWait(old(keyCooldowns), old(now), now - old(now)) && Snapshot() == old(Snapshot()).(now := now)
      ensures AnyKeyFree(old(Snapshot()), |keys|) && model.None? ==>
        IsMinWait(old(modelCooldowns), old(now), now - old(now))
        && FirstFreeKey(old(Snapshot()), |keys|, currentKeyIndex) && modelCooldowns == map[] && currentModelIndex == 0
    {
      ghost var s0 := Snapshot();
      var keyFound := FindAvailableKey();
      if !keyFound {
        WaitForKey();
        return None;
      }
      FreedomIgnoresPositions(s0, currentKeyIndex, currentModelIndex, |keys|);
      model := FindAvailableModel();
      if model.None? {
        WaitForModel();
        assert KeyFree(Snapshot(), currentKeyIndex);
        return None;
      }
      RankOfPosition(currentModelIndex);
      assert KeyFree(Snapshot(), currentKeyIndex);
    }

    /**
     * One pass of the retry loop. With every key cooling down it waits for
     * the first key to come back; with every model cooling down it waits for
     * the first model to come back and then clears the model ledger and goes
     * back to the best model; otherwise it makes one call (`made`) with the
     * first free key from the current one and the most capable free model,
     * and on failure runs the catch block. Its result is the cleaned text
     * when that call succeeded.
     */
    method Attempt(prompt: string, backend: Backend) returns (text: Option<string>, ghost made: seq<Call>)
      requires Ready() && |keys| > 0
      modifies this
      ensures Ready()
      ensures calls == old(calls) + made && |made| <= 1 && AnsweredBy(made, keys, prompt, backend)
      ensures text.None? ==> AllFailed(made)
      ensures text.Some? ==> |made| == 1 && made[0].reply.Ok? && text.value == CleanReply(made[0].reply.text)
      ensures now >= old(now)
      ensures Pass(old(Snapshot()), |keys|, made, Snapshot())
      ensures |made| == 1 ==> made[0].time == ThrottledTime(old(now), old(lastRequestTime))
    {
      var model := SelectOrWait();
      if model.None? {
        return None, [];
      }
      ghost var call;
      text, call := TryModel(prompt, model.value, backend);
      made := [call];
    }

    /**
     * One round of the retry loop: an attempt after the calls `made` of the
     * earlier rounds, logged after `base`, with `LoopFacts` holding of them.
     * The attempt is the pass `step`; the log of the request is extended by
     * its call, and `LoopFacts` holds of the extended run.
     */
    method Round(prompt: string, backend: Backend, ghost start: Rotation, ghost base: seq<Call>,
                 ghost made: seq<Call>, ghost first: Option<Call>, rounds: nat,
                 ghost trace: seq<Rotation>, ghost steps: seq<seq<Call>>)
      returns (text: Option<string>, ghost extended: seq<Call>, ghost firstAfter: Option<Call>, ghost step: seq<Call>,
               ghost traceAfter: seq<Rotation>, ghost stepsAfter: seq<seq<Call>>)
      requires Ready() && |keys| > 0 && calls == base + made
      requires LoopFacts(keys, prompt, backend, start, Snapshot(), made, first, rounds, trace, steps, None)
      modifies this
      ensures Ready() && calls == base + extended && now >= old(now)
      ensures extended == made + step && |step| <= 1
      ensures Pass(old(Snapshot()), |keys|, step, Snapshot())
      ensures LoopFacts(keys, prompt, backend, start, Snapshot(), extended, firstAfter, rounds + 1, traceAfter, stepsAfter, text)
    {
      ghost var before := Snapshot();
      assert Valid();
      text, step := Attempt(prompt, backend);
      LoopStep(keys, prompt, backend, start, before, Snapshot(), made, first, rounds, trace, steps, step, text);
      AppendAssoc(base, made, step);
      firstAfter, extended := FirstAfter(first, step), made + step;
      traceAfter, stepsAfter := trace + [Snapshot()], steps + [step];
    }

    /**
     * The retry loop of `generateContentWithRetry`, with keys configured:
     * attempts until one returns text or `MaxAttempts(|keys|)` attempts are
     * spent. The attempts are the run of passes `trace`/`steps` from the
     * state at the start to the state at the end, and a success is the call
     * of the last pass. It makes at least one call; when a key and a model
     * are free at the start, the first call uses the first of each.
     */
    method Retry(prompt: string, backend: Backend)
      returns (text: Option<string>, attempts: nat, ghost made: seq<Call>,
               ghost trace: seq<Rotation>, ghost steps: seq<seq<Call>>)
      requires Ready() && |keys| > 0
      modifies this
      ensures Ready()
      ensures calls == old(calls) + made && AnsweredBy(made, keys, prompt, backend)
      ensures 1 <= |made| <= attempts <= MaxAttempts(|keys|)
      ensures text.Some? ==> SucceededLast(made, text.value)
      ensures text.None? ==> AllFailed(made) && attempts == MaxAttempts(|keys|)
      ensures Passes(|keys|, trace, steps) && |steps| == attempts && made == Concat(steps)
      ensures trace[0] == old(Snapshot()) && trace[attempts] == Snapshot()
      ensures text.Some? ==> steps[attempts - 1] != []
      ensures now >= old(now) && lastRequestTime == made[|made| - 1].time
      ensures AnyKeyFree(old(Snapshot()), |keys|) && AnyModelFree(old(Snapshot())) ==>
        FirstFreeKey(old(Snapshot()), |keys|, made[0].keyIndex) && FirstFreeModel(old(Snapshot()), Rank(made[0].model))
    {
      ghost var start := Snapshot();
      var maxAttempts := MaxAttempts(|keys|);
      attempts := 0;
      text := None;
      made := [];
      ghost var first: Option<Call> := None;
      trace, steps := [start], [];
      while attempts < maxAttempts && text.None?
        invariant Ready()
        invariant 0 <= attempts <= maxAttempts
        invariant calls == old(calls) + made && |made| <= attempts
        invariant now >= old(now)
        invariant LoopFacts(keys, prompt, backend, start, Snapshot(), made, first, attempts, trace, steps, text)
      {
        ghost var step;
        text, made, first, step, trace, steps :=
          Round(prompt, backend, start, old(calls), made, first, attempts, trace, steps);
        attempts := attempts + 1;
      }
      ghost var cur := Snapshot();
      LoopDone(keys, prompt, backend, start, cur, made, first, attempts, trace, steps, text);
    }

    /**
     * `generateContentWithRetry(prompt)`. With no keys it fails at once and
     * calls nothing. Otherwise it starts from the best model and makes at most
     * `MaxAttempts(|keys|)` attempts, each of which makes at most one call; it
     * returns the cleaned text of the first successful call, and after the
     * last attempt fails with the attempt count. `made` are the calls this
     * request made, all of them answered by `backend`: at least one, and when
     * a key and a model are free at the start, the first uses the first of each.
     * The attempts are the run of passes `trace`/`steps` from the start state
     * with the best model selected to the final state; a failure follows the
     * full budget of passes, a success is the call of the last pass.
     */
    method GenerateContentWithRetry(prompt: string, backend: Backend)
      returns (r: GenResult, ghost made: seq<Call>, ghost trace: seq<Rotation>, ghost steps: seq<seq<Call>>)
      requires Ready()
      modifies this
      ensures Ready()
      ensures |keys| == 0 ==> r == Failed(NoKeys) && made == [] && unchanged(this) && steps == []
      ensures |keys| > 0 ==>
        Passes(|keys|, trace, steps) && 1 <= |steps| <= MaxAttempts(|keys|)
        && trace[0] == old(Snapshot()).(modelIndex := 0) && trace[|steps|] == Snapshot()
      ensures made == Concat(steps)
      ensures |keys| > 0 && r.Failed? ==> |steps| == MaxAttempts(|keys|)
      ensures r.Generated? ==> |steps| >= 1 && steps[|steps| - 1] != []
      ensures calls == old(calls) + made && AnsweredBy(made, keys, prompt, backend)
      ensures |made| <= MaxAttempts(|keys|)
      ensures r.Generated? ==> SucceededLast(made, r.text)
      ensures r.Failed? ==> AllFailed(made)
      ensures |keys| > 0 && r.Failed? ==> r.error == Exhausted(MaxAttempts(|keys|))
      ensures now >= old(now)
      ensures |keys| > 0 ==> |made| >= 1 && lastRequestTime == made[|made| - 1].time
      ensures |keys| > 0 && AnyKeyFree(old(Snapshot()), |keys|) && AnyModelFree(old(Snapshot())) ==>
        FirstFreeKey(old(Snapshot()), |keys|, made[0].keyIndex) && FirstFreeModel(old(Snapshot()), Rank(made[0].model))
    {
      if |keys| == 0 {
        return Failed(NoKeys), [], [Snapshot()], [];
      }
      currentModelIndex := 0;
      FreedomIgnoresPositions(old(Snapshot()), currentKeyIndex, 0, |keys|);
      var text, attempts;
      text, attempts, made, trace, steps := Retry(prompt, backend);
      r := if text.Some? then Generated(text.value) else Failed(Exhausted(attempts));
    }
  }
}
