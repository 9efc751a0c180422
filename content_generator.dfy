/**
 * One bot cycle (`src/core/content-generator.js`): pick a mode other than the
 * last one, generate the tweet for it (a NEWS tweet links the article), fall
 * back to a coding tip when that produced nothing, post unless it is a dry
 * run, and remember the mode only when the post went out. Randomness, the
 * news feed, the saved state, the clock's timestamp, the Gemini SDK and the
 * Twitter client are inputs; the log is an append-only list of events.
 */
module ContentGenerator {
  import opened Wrappers
  import opened Strings
  import Gemini
  import Twitter

  /** The three kinds of tweet, by their names in the saved state. */
  datatype Mode = News | Life | Tip {
    function Name(): string
    {
      match this
      case News => "NEWS"
      case Life => "LIFE"
      case Tip => "TIP"
    }
  }

  /** `['NEWS', 'LIFE', 'TIP']`. */
  const ALL_MODES: seq<Mode> := [News, Life, Tip]

  /** The news article the feed returns: title, link and comma-joined tags. */
  datatype Article = Article(title: string, url: string, tags: string)

  /** The log levels the cycle uses. */
  datatype Level = Info | Success | Warning | Error | System | Preview

  /** The log lines of a cycle, each with its message text and level. */
  datatype Event =
    | WakingUp
    | PreviousMode(shown: string)
    | NewsModeChosen
    | LifeModeChosen
    | FallingBack(from: Mode)
    | TipModeChosen
    | GeneratingContent(mode: Mode, short: bool)
    | ContentGenerated
    | GenerationFailed(error: Gemini.GenError)
    | GeneratedTweet(tweet: string)
    | DryRunNotPosted
    | NothingGenerated
    | CycleComplete
  {
    function Message(): string
    {
      match this
      case WakingUp => "Bot Waking Up..."
      case PreviousMode(shown) => "Previous Mode: " + shown
      case NewsModeChosen => "Mode: Tech News (Viral/Recent)"
      case LifeModeChosen => "Mode: Engineering Life (Tier-3 Context)"
      case FallingBack(from) => from.Name() + " failed, falling back to TIP."
      case TipModeChosen => "Mode: Coding Tip/Teaching"
      case GeneratingContent(mode, short) =>
        "Generating tweet content (" + mode.Name() + ") - " + (if short then "Short" else "Medium") + "..."
      case ContentGenerated => "Content generated successfully."
      case GenerationFailed(error) => "Gemini Generation Failed: " + error.Message()
      case GeneratedTweet(tweet) => "Generated Tweet:\\n" + tweet
      case DryRunNotPosted => "Dry Run Mode: Tweet NOT posted."
      case NothingGenerated => "Failed to generate content."
      case CycleComplete => "Bot cycle complete."
    }

    function Level(): Level
    {
      match this
      case WakingUp | PreviousMode(_) | CycleComplete => System
      case NewsModeChosen | LifeModeChosen | TipModeChosen | GeneratingContent(_, _) | DryRunNotPosted => Info
      case FallingBack(_) => Warning
      case ContentGenerated => Success
      case GenerationFailed(_) | NothingGenerated => Error
      case GeneratedTweet(_) => Preview
    }
  }

  /** The shared logger: every `log` call appends one entry. */
  class Logger {
    var entries: seq<Event>

    constructor ()
      ensures entries == []
    {
      entries := [];
    }

    method Log(e: Event)
      modifies this
      ensures entries == old(entries) + [e]
    {
      entries := entries + [e];
    }
  }

  /**
   * The fixed texts prompts are built from: the persona, the task lines of
   * each mode and the two length instructions.
   */
  datatype PromptTexts = PromptTexts(
    basePrompt: string, newsTask: string, newsOutput: string, lifeTask: string, tipTask: string,
    shortLength: string, mediumLength: string)

  /** The bot's own texts (lines joined by a literal backslash-n, as in the source). */
  const PROMPT_TEXTS: PromptTexts := PromptTexts(
    "You are a Relatable Senior Software Engineer running a curated 'Daily Coding Tips' feed." + "\\n"
    + "Context: You understand the struggle of Tier-3 college students, off-campus placement hustles, and the 'LeetCode grind' vs 'Development' balance." + "\\n"
    + "Tone: Experienced but grounded, encouraging but realistic, slightly witty." + "\\n"
    + "Style: Write like a human dev posting on Twitter (X)." + "\\n"
    + "Constraints:" + "\\n"
    + "- Use natural sentence structures." + "\\n"
    + "- Avoid 'AI' buzzwords like 'Here is a tip', 'Unlock potential', 'Deep dive'." + "\\n"
    + "- Use real formatting (line breaks) for readability." + "\\n"
    + "- ALWAYS include 5-6 relevant hashtags at the end, PLUS the mandatory hashtag: #cddclubpmec.",
    "Task: Write a savvy, hook-filled comment/summary of this article to get people to click." + "\\n",
    "Output: The tweet text + '\U{1F447}'" + "\\n",
    "Task: Share a relatable thought, observation, or motivation for engineering students." + "\\n"
    + "Themes: Tier-3 college struggles, overcoming imposter syndrome, 'Tutorial Hell', Placement anxiety, or the joy of fixing a bug." + "\\n"
    + "Output: Just the tweet text." + "\\n",
    "Task: Share one specific, high-value coding tip, 'condition' (if this then that), or teaching." + "\\n"
    + "Topics: Clean Code norms, unexpected CSS behaviors, Node.js performance, System Design tradeoffs, or a 'Did you know?' fact." + "\\n"
    + "Output: Just the tweet text." + "\\n",
    "Length: Ultra-short & punchy (under 140 chars).",
    "Length: Medium & insightful (under 260 chars).")

  /** The line break the prompt lines end with: a literal backslash-n, as in the source. */
  const NEWLINE: string := "\\n"

  /** The labels of the article lines of a NEWS prompt. */
  const TITLE_LABEL: string := "Article Title: "
  const TAGS_LABEL: string := "Tags: "

  /** The separator between a NEWS hook and the article link. */
  const READ_MORE: string := "\\n\\nRead more: "

  /** `lastMode || 'None'`: the saved mode, or `None` when it is absent or empty. */
  function PreviousModeText(lastMode: Option<string>): (t: string)
    ensures t != ""
    ensures lastMode.Some? && lastMode.value != "" ==> t == lastMode.value
  {
    if lastMode.Some? && lastMode.value != "" then lastMode.value else "None"
  }

  /** The modes of `modes` whose name is not `lastMode`, in order. */
  function Keep(modes: seq<Mode>, lastMode: Option<string>): (kept: seq<Mode>)
    ensures forall m :: m in kept <==> m in modes && lastMode != Some(m.Name())
    ensures |kept| <= |modes|
    decreases |modes|
  {
    if modes == [] then []
    else if lastMode == Some(modes[0].Name()) then Keep(modes[1..], lastMode)
    else [modes[0]] + Keep(modes[1..], lastMode)
  }

  /** `allModes.filter(m => m !== lastMode)`: every mode but the last one used. */
  function AvailableModes(lastMode: Option<string>): (modes: seq<Mode>)
    ensures forall m :: m in modes <==> lastMode != Some(m.Name())
  {
    Keep(ALL_MODES, lastMode)
  }

  /** The available modes, case by case: the listed order without the last mode. */
  lemma AvailableModesCases(lastMode: Option<string>)
    ensures AvailableModes(lastMode) ==
      if lastMode == Some("NEWS") then [Life, Tip]
      else if lastMode == Some("LIFE") then [News, Tip]
      else if lastMode == Some("TIP") then [News, Life]
      else ALL_MODES
  {
    assert ALL_MODES[1..] == [Life, Tip] && ALL_MODES[1..][1..] == [Tip] && ALL_MODES[1..][1..][1..] == [];
  }

  /** `Math.floor(roll * n)` for a roll in [0, 1): a position among `n` choices. */
  function PickIndex(n: nat, roll: real): (i: nat)
    requires n > 0 && 0.0 <= roll < 1.0
    ensures i < n
  {
    var x := roll * n as real;
    assert (1.0 - roll) * (n as real) > 0.0;
    x.Floor
  }

  /** The initial mode: the available mode the roll falls on, never the last mode. */
  function PickMode(lastMode: Option<string>, roll: real): (m: Mode)
    requires 0.0 <= roll < 1.0
    ensures m in AvailableModes(lastMode) && lastMode != Some(m.Name())
  {
    var modes := AvailableModes(lastMode);
    assert Tip in modes || News in modes;
    modes[PickIndex(|modes|, roll)]
  }

  /** The article lines of a NEWS prompt. */
  function TitleLine(article: Article): string
  {
    TITLE_LABEL + article.title + NEWLINE
  }

  function TagsLine(article: Article): string
  {
    TAGS_LABEL + article.tags + NEWLINE
  }

  /**
   * The task part of the prompt for a mode. NEWS without an article falls
   * to the tip task, as the source's final `else` does.
   */
  function Task(texts: PromptTexts, mode: Mode, article: Option<Article>): (t: string)
    ensures mode == Life ==> t == texts.lifeTask
    ensures mode == Tip || (mode == News && article.None?) ==> t == texts.tipTask
  {
    if mode == News && article.Some? then
      texts.newsTask + TitleLine(article.value) + TagsLine(article.value) + texts.newsOutput
    else if mode == Life then texts.lifeTask
    else texts.tipTask
  }

  function LengthConstraint(texts: PromptTexts, short: bool): string
  {
    if short then texts.shortLength else texts.mediumLength
  }

  /** The prompt `generateTweetContent` sends: the persona, the task for the mode, the length instruction. */
  function BuildPrompt(texts: PromptTexts, mode: Mode, article: Option<Article>, short: bool): string
  {
    texts.basePrompt + NEWLINE + Task(texts, mode, article) + LengthConstraint(texts, short)
  }

  /** Every prompt opens with the persona on a line of its own and closes with the length instruction. */
  lemma PromptFraming(texts: PromptTexts, mode: Mode, article: Option<Article>, short: bool)
    ensures var p, c := BuildPrompt(texts, mode, article, short), LengthConstraint(texts, short);
      texts.basePrompt + NEWLINE <= p && |p| >= |c| && p[|p| - |c|..] == c
  {
  }

  /** A NEWS prompt names the article's title and tags. */
  lemma NewsPromptNamesArticle(texts: PromptTexts, article: Article, short: bool)
    ensures Contains(BuildPrompt(texts, News, Some(article), short), TitleLine(article))
    ensures Contains(BuildPrompt(texts, News, Some(article), short), TagsLine(article))
  {
    var head, tail := texts.basePrompt + NEWLINE, LengthConstraint(texts, short);
    var task := Task(texts, News, Some(article));
    NewsTaskNamesArticle(texts, article);
    ContainsWithin(head, task, tail, TitleLine(article));
    ContainsWithin(head, task, tail, TagsLine(article));
  }

  /** The task part of a NEWS prompt holds the title line and the tags line. */
  lemma NewsTaskNamesArticle(texts: PromptTexts, article: Article)
    ensures Contains(Task(texts, News, Some(article)), TitleLine(article))
    ensures Contains(Task(texts, News, Some(article)), TagsLine(article))
  {
    var title, tags := TitleLine(article), TagsLine(article);
    assert Contains(title, title) && Contains(tags, tags);
    ContainsWithin(texts.newsTask, title, tags, title);
    ContainsBefore(texts.newsTask + title + tags, texts.newsOutput, title);
    ContainsWithin(texts.newsTask + title, tags, texts.newsOutput, tags);
  }

  /** The tweet for a NEWS hook: the hook, the separator, the link. */
  function NewsTweet(hook: string, url: string): (t: string)
    ensures |t| == |hook| + |READ_MORE| + |url|
  {
    hook + READ_MORE + url
  }

  /** The NEWS tweet splits back into its hook and its link. */
  lemma NewsTweetParts(hook: string, url: string)
    ensures var t := NewsTweet(hook, url);
      t[..|hook|] == hook && t[|hook|..|hook| + |READ_MORE|] == READ_MORE && t[|t| - |url|..] == url
  {
  }

  /** JavaScript truthiness of a generated text: present and not empty. */
  function TextOrEmpty(text: Option<string>): (t: string)
    ensures t != "" <==> text.Some? && text.value != ""
  {
    if text.Some? then text.value else ""
  }

  /**
   * The tweet a generated `text` makes in `mode`: a NEWS hook about an
   * article is followed by the link, a LIFE or TIP text is the tweet itself.
   * It is empty exactly when the text is missing or empty.
   */
  function TweetFrom(mode: Mode, article: Option<Article>, text: Option<string>): (t: string)
    ensures t != "" <==> TextOrEmpty(text) != ""
  {
    if mode == News && article.Some? && TextOrEmpty(text) != "" then NewsTweet(text.value, article.value.url)
    else TextOrEmpty(text)
  }

  /** One generation of a cycle: the prompt sent, the text it returned and the SDK calls it made. */
  datatype Generation = Generation(prompt: string, text: Option<string>, made: seq<Gemini.Call>)
  {
    /** The calls were answered by `backend` and produced the text (see `Gemini.Outcome`). */
    ghost predicate Valid(keys: seq<string>, backend: Gemini.Backend)
    {
      Gemini.Outcome(made, text, keys, prompt, backend)
    }
  }

  /** The SDK calls of an optional generation. */
  function CallsOf(g: Option<Generation>): seq<Gemini.Call>
  {
    if g.Some? then g.value.made else []
  }

  /** The first generation of a cycle made of `first`, when there is one, then `last`. */
  function FirstOf(first: Option<Generation>, last: Generation): Generation
  {
    if first.Some? then first.value else last
  }

  /** A cycle that picked `mode` drafts a tweet of its own: LIFE, or NEWS with an article. */
  predicate HasDraft(mode: Mode, article: Option<Article>)
  {
    mode == Life || (mode == News && article.Some?)
  }

  /**
   * The generations of a cycle that picked `chosen`, with the length rolls
   * `rolls`:
   * - a mode with a draft of its own generates first, with its own prompt and
   *   the first roll;
   * - the TIP fallback follows exactly when there is no such draft or the
   *   draft made no tweet; it uses the first roll when it is the cycle's
   *   first generation and the second otherwise;
   * - the tweet's `mode` is TIP after the fallback and `chosen` otherwise.
   */
  ghost predicate CycleGenerations(texts: PromptTexts, chosen: Mode, news: Option<Article>, rolls: (real, real),
                                   first: Option<Generation>, last: Generation, mode: Mode)
  {
    (first.Some? <==> HasDraft(chosen, news) && TweetFrom(chosen, news, FirstOf(first, last).text) == "")
    && (chosen == News && news.Some? ==> FirstOf(first, last).prompt == BuildPrompt(texts, News, news, rolls.0 < 0.5))
    && (chosen == Life ==> FirstOf(first, last).prompt == BuildPrompt(texts, Life, None, rolls.0 < 0.5))
    && (!HasDraft(chosen, news) ==> last.prompt == BuildPrompt(texts, Tip, None, rolls.0 < 0.5))
    && (first.Some? ==> last.prompt == BuildPrompt(texts, Tip, None, rolls.1 < 0.5))
    && mode == (if HasDraft(chosen, news) && first.None? then chosen else Tip)
  }

  /**
   * The lines `generateTweetContent` logs for `mode` and the length roll when
   * its request gave `text` with `keyCount` keys configured: the failure line
   * carries the error the rotation manager raises.
   */
  function GenerationLog(mode: Mode, short: bool, text: Option<string>, keyCount: nat): seq<Event>
  {
    [GeneratingContent(mode, short),
     if text.Some? then ContentGenerated
     else GenerationFailed(if keyCount == 0 then Gemini.NoKeys else Gemini.Exhausted(Gemini.MaxAttempts(keyCount)))]
  }

  /** The lines the draft of `chosen` logs when its generation, if any, gave `text`. */
  function DraftLog(chosen: Mode, article: Option<Article>, short: bool, text: Option<string>, keyCount: nat): seq<Event>
  {
    match chosen
    case News => [NewsModeChosen] + (if article.Some? then GenerationLog(News, short, text, keyCount) else [])
    case Life => [LifeModeChosen] + GenerationLog(Life, short, text, keyCount)
    case Tip => []
  }

  /** The lines the TIP fallback logs after `from` when its generation gave `text`. */
  function FallbackLog(from: Mode, short: bool, text: Option<string>, keyCount: nat): seq<Event>
  {
    (if from != Tip then [FallingBack(from)] else []) + [TipModeChosen] + GenerationLog(Tip, short, text, keyCount)
  }

  /** The lines the middle of a cycle logs: the draft's, then the fallback's when the tweet's `mode` is TIP after it. */
  function CycleLog(chosen: Mode, news: Option<Article>, rolls: (real, real), first: Option<Generation>,
                    last: Generation, mode: Mode, keyCount: nat): seq<Event>
  {
    DraftLog(chosen, news, rolls.0 < 0.5, FirstOf(first, last).text, keyCount)
    + (if mode == Tip then FallbackLog(chosen, (if HasDraft(chosen, news) then rolls.1 else rolls.0) < 0.5, last.text, keyCount)
       else [])
  }

  /** The lines publishing `tweet` logs: the preview and the dry-run notice, or the failure line without a tweet. */
  function PublishLog(tweet: string, dryRun: bool): seq<Event>
  {
    if tweet == "" then [NothingGenerated] else [GeneratedTweet(tweet)] + (if dryRun then [DryRunNotPosted] else [])
  }

  /** What `Draft` promises of its generation `g`, its draft and its log lines. */
  ghost predicate DraftFacts(texts: PromptTexts, chosen: Mode, news: Option<Article>, roll: real,
                             g: Option<Generation>, draft: string, logged: seq<Event>, keyCount: nat)
  {
    (g.Some? <==> HasDraft(chosen, news))
    && (chosen == News && news.Some? ==> g.Some? && g.value.prompt == BuildPrompt(texts, News, news, roll < 0.5))
    && (chosen == Life ==> g.Some? && g.value.prompt == BuildPrompt(texts, Life, None, roll < 0.5))
    && (g.Some? ==> draft == TweetFrom(chosen, news, g.value.text))
    && (g.None? ==> draft == "")
    && logged == DraftLog(chosen, news, roll < 0.5, if g.Some? then g.value.text else None, keyCount)
  }

  /** A non-empty draft is the cycle's tweet, in the chosen mode, and the cycle logs only the draft's lines. */
  lemma DraftStands(texts: PromptTexts, chosen: Mode, news: Option<Article>, rolls: (real, real),
                    g: Option<Generation>, draft: string, drafted: seq<Event>, keyCount: nat)
    requires DraftFacts(texts, chosen, news, rolls.0, g, draft, drafted, keyCount) && draft != ""
    ensures g.Some? && HasDraft(chosen, news) && chosen != Tip
    ensures CycleGenerations(texts, chosen, news, rolls, None, g.value, chosen)
    ensures drafted == CycleLog(chosen, news, rolls, None, g.value, chosen, keyCount)
  {
  }

  /**
   * An empty draft, or none, is followed by the tip fallback: the cycle's
   * tweet is in TIP mode, the draft's generation comes first, and the cycle
   * logs the draft's lines and then the fallback's.
   */
  lemma FallbackFollows(texts: PromptTexts, chosen: Mode, news: Option<Article>, rolls: (real, real),
                        g: Option<Generation>, draft: string, drafted: seq<Event>,
                        last: Generation, fallback: seq<Event>, keyCount: nat)
    requires DraftFacts(texts, chosen, news, rolls.0, g, draft, drafted, keyCount) && draft == ""
    requires last.prompt == BuildPrompt(texts, Tip, None, (if HasDraft(chosen, news) then rolls.1 else rolls.0) < 0.5)
    requires fallback == FallbackLog(chosen, (if HasDraft(chosen, news) then rolls.1 else rolls.0) < 0.5, last.text, keyCount)
    ensures CycleGenerations(texts, chosen, news, rolls, g, last, Tip)
    ensures drafted + fallback == CycleLog(chosen, news, rolls, g, last, Tip, keyCount)
  {
  }

  /** What a cycle returns: `{status: 'success', tweet, mode}` or `{status: 'error', message}`. */
  datatype BotResult = BotSuccess(tweet: string, mode: Mode) | BotError(message: string)

  /** The record `saveState` writes. */
  datatype SavedState = SavedState(lastMode: string, lastRun: string)

  /**
   * `generateTweetContent(mode, article)`: build the prompt (short when
   * `roll < 0.5`) and ask the rotation manager for text. A failed generation
   * is `None` rather than an error. `made` are the SDK calls it caused.
   */
  method GenerateTweetContent(texts: PromptTexts, mode: Mode, article: Option<Article>, roll: real,
                              rm: Gemini.RotationManager, backend: Gemini.Backend, logger: Logger)
    returns (text: Option<string>, prompt: string, ghost made: seq<Gemini.Call>, ghost logged: seq<Event>)
    requires rm.Ready()
    modifies rm, logger
    ensures rm.Ready()
    ensures prompt == BuildPrompt(texts, mode, article, roll < 0.5)
    ensures rm.calls == old(rm.calls) + made && Gemini.Outcome(made, text, rm.keys, prompt, backend)
    ensures logger.entries == old(logger.entries) + logged
    ensures logged == GenerationLog(mode, roll < 0.5, text, |rm.keys|)
  {
    var short := roll < 0.5;
    prompt := BuildPrompt(texts, mode, article, short);
    logger.Log(GeneratingContent(mode, short));
    var r;
    ghost var trace, steps;
    r, made, trace, steps := rm.GenerateContentWithRetry(prompt, backend);
    if r.Generated? {
      logger.Log(ContentGenerated);
      text := Some(r.text);
      logged := [GeneratingContent(mode, short), ContentGenerated];
    } else {
      logger.Log(GenerationFailed(r.error));
      text := None;
      logged := [GeneratingContent(mode, short), GenerationFailed(r.error)];
    }
  }

  /**
   * The mode-specific part of a cycle: NEWS asks the feed's article for a
   * hook and links it, LIFE asks for a thought, TIP does nothing yet. The
   * draft is the tweet the generation `g` makes, empty when nothing usable
   * came back; there is no generation for TIP or for NEWS without an article.
   */
  method Draft(texts: PromptTexts, chosen: Mode, news: Option<Article>, roll: real,
               rm: Gemini.RotationManager, backend: Gemini.Backend, logger: Logger)
    returns (draft: string, ghost g: Option<Generation>, ghost logged: seq<Event>)
    requires rm.Ready()
    modifies rm, logger
    ensures rm.Ready()
    ensures logger.entries == old(logger.entries) + logged
    ensures rm.calls == old(rm.calls) + CallsOf(g)
    ensures g.Some? <==> HasDraft(chosen, news)
    ensures chosen == News && news.Some? ==> g.Some? && g.value.prompt == BuildPrompt(texts, News, news, roll < 0.5)
    ensures chosen == Life ==> g.Some? && g.value.prompt == BuildPrompt(texts, Life, None, roll < 0.5)
    ensures g.Some? ==> g.value.Valid(rm.keys, backend) && draft == TweetFrom(chosen, news, g.value.text)
    ensures g.None? ==> draft == ""
    ensures logged == DraftLog(chosen, news, roll < 0.5, if g.Some? then g.value.text else None, |rm.keys|)
  {
    draft, g, logged := "", None, [];
    if chosen == News {
      logger.Log(NewsModeChosen);
      logged := [NewsModeChosen];
      if news.Some? {
        var text, prompt;
        ghost var made, generating;
        text, prompt, made, generating := GenerateTweetContent(texts, News, news, roll, rm, backend, logger);
        g := Some(Generation(prompt, text, made));
        logged := logged + generating;
        if TextOrEmpty(text) != "" {
          draft := NewsTweet(text.value, news.value.url);
        }
      }
    } else if chosen == Life {
      logger.Log(LifeModeChosen);
      var text, prompt;
      ghost var made, generating;
      text, prompt, made, generating := GenerateTweetContent(texts, Life, None, roll, rm, backend, logger);
      g := Some(Generation(prompt, text, made));
      logged := [LifeModeChosen] + generating;
      draft := TextOrEmpty(text);
    }
  }

  /**
   * The fallback: warn when leaving NEWS or LIFE, then generate a tip, once.
   * The tweet is the text of the generation `g`, empty when there is none.
   */
  method TipFallback(texts: PromptTexts, from: Mode, roll: real,
                     rm: Gemini.RotationManager, backend: Gemini.Backend, logger: Logger)
    returns (tweet: string, ghost g: Generation, ghost logged: seq<Event>)
    requires rm.Ready()
    modifies rm, logger
    ensures rm.Ready()
    ensures logger.entries == old(logger.entries) + logged
    ensures logged == FallbackLog(from, roll < 0.5, g.text, |rm.keys|)
    ensures g.prompt == BuildPrompt(texts, Tip, None, roll < 0.5)
    ensures rm.calls == old(rm.calls) + g.made && g.Valid(rm.keys, backend)
    ensures tweet == TextOrEmpty(g.text)
  {
    logged := [];
    if from != Tip {
      logger.Log(FallingBack(from));
      logged := [FallingBack(from)];
    }
    logger.Log(TipModeChosen);
    var text, prompt;
    ghost var made, generating;
    text, prompt, made, generating := GenerateTweetContent(texts, Tip, None, roll, rm, backend, logger);
    logged := logged + [TipModeChosen] + generating;
    tweet := TextOrEmpty(text);
    g := Generation(prompt, text, made);
  }

  /**
   * The end of a cycle: with a tweet, post it unless this is a dry run and
   * save the mode when the post went out; without one, report the failure.
   */
  method Publish(tweet: string, mode: Mode, dryRun: bool, client: Twitter.TwitterClient, timestamp: string,
                 logger: Logger)
    returns (result: BotResult, posts: seq<Twitter.TweetRun>, saved: Option<SavedState>, ghost logged: seq<Event>)
    modifies logger
    ensures logger.entries == old(logger.entries) + logged
    ensures logged == PublishLog(tweet, dryRun)
    ensures result.BotSuccess? <==> tweet != ""
    ensures result.BotSuccess? ==> result == BotSuccess(tweet, mode)
    ensures result.BotError? ==> result == BotError("Failed to generate content") && posts == [] && saved == None
    ensures dryRun ==> posts == [] && saved == None
    ensures !dryRun && tweet != "" ==> posts == [Twitter.Expected(Some(tweet), client)]
    ensures saved.Some? <==> !dryRun && tweet != "" && posts[0].posted
    ensures saved.Some? ==> saved.value == SavedState(mode.Name(), timestamp)
  {
    posts, saved := [], None;
    if tweet != "" {
      logged := [GeneratedTweet(tweet)] + (if dryRun then [DryRunNotPosted] else []);
      logger.Log(GeneratedTweet(tweet));
      if !dryRun {
        var run := Twitter.PostTweet(Some(tweet), client);
        posts := [run];
        if run.posted {
          saved := Some(SavedState(mode.Name(), timestamp));
        }
      } else {
        logger.Log(DryRunNotPosted);
      }
      result := BotSuccess(tweet, mode);
    } else {
      logged := [NothingGenerated];
      logger.Log(NothingGenerated);
      result := BotError("Failed to generate content");
    }
  }

  /**
   * The middle of a cycle: the chosen mode's draft, and the tip fallback
   * when the draft is empty. `mode` is the mode the tweet was made in and
   * `last` the generation that made it; `first` is the draft's generation
   * when the fallback followed one. `rolls` are the length rolls of the
   * first and the second generation.
   */
  method Compose(texts: PromptTexts, chosen: Mode, news: Option<Article>, rolls: (real, real),
                 rm: Gemini.RotationManager, backend: Gemini.Backend, logger: Logger)
    returns (tweet: string, mode: Mode, ghost first: Option<Generation>, ghost last: Generation,
             ghost logged: seq<Event>)
    requires rm.Ready()
    modifies rm, logger
    ensures rm.Ready()
    ensures logger.entries == old(logger.entries) + logged
    ensures logged == CycleLog(chosen, news, rolls, first, last, mode, |rm.keys|)
    ensures rm.calls == old(rm.calls) + CallsOf(first) + last.made
    ensures last.Valid(rm.keys, backend) && (first.Some? ==> first.value.Valid(rm.keys, backend))
    ensures CycleGenerations(texts, chosen, news, rolls, first, last, mode)
    ensures tweet == TweetFrom(mode, news, last.text)
  {
    ghost var g, drafted;
    tweet, g, drafted := Draft(texts, chosen, news, rolls.0, rm, backend, logger);
    assert DraftFacts(texts, chosen, news, rolls.0, g, tweet, drafted, |rm.keys|);
    if tweet != "" {
      DraftStands(texts, chosen, news, rolls, g, tweet, drafted, |rm.keys|);
      assert old(rm.calls) + CallsOf(None) == old(rm.calls);
      mode, first, last, logged := chosen, None, g.value, drafted;
    } else {
      // the fallback's generation is the first of the cycle when the draft made none
      var roll := if HasDraft(chosen, news) then rolls.1 else rolls.0;
      ghost var draft, fallback := tweet, [];
      first := g;
      tweet, last, fallback := TipFallback(texts, chosen, roll, rm, backend, logger);
      FallbackFollows(texts, chosen, news, rolls, g, draft, drafted, last, fallback, |rm.keys|);
      Gemini.AppendAssoc(old(logger.entries), drafted, fallback);
      mode, logged := Tip, drafted + fallback;
    }
  }

  /**
   * `runBot(options)`. `lastMode` is the saved mode, `modeRoll` the roll
   * picking the initial mode, `rolls` the rolls of the first and second
   * generation, `news` what the news feed returns, `client` the Twitter
   * client and `timestamp` the time written with the saved state. `chosen`
   * is the initial mode and `mode` the mode of the tweet, `posts` the runs
   * of `postTweet`, `saved` what `saveState` was given; `first` and `last`
   * are the cycle's generations; the cycle logs the wake-up lines, then
   * `middle`, then the completion line.
   */
  method RunBot(texts: PromptTexts, dryRun: bool, lastMode: Option<string>, modeRoll: real, rolls: (real, real),
                news: Option<Article>, rm: Gemini.RotationManager, backend: Gemini.Backend,
                client: Twitter.TwitterClient, timestamp: string, logger: Logger)
    returns (result: BotResult, chosen: Mode, mode: Mode, posts: seq<Twitter.TweetRun>,
             saved: Option<SavedState>, ghost middle: seq<Event>,
             ghost first: Option<Generation>, ghost last: Generation)
    requires 0.0 <= modeRoll < 1.0
    requires rm.Ready()
    modifies rm, logger
    ensures rm.Ready()
    ensures chosen == PickMode(lastMode, modeRoll)
    ensures logger.entries ==
      old(logger.entries) + [WakingUp, PreviousMode(PreviousModeText(lastMode))] + middle + [CycleComplete]
    ensures middle == CycleLog(chosen, news, rolls, first, last, mode, |rm.keys|)
                      + PublishLog(TweetFrom(mode, news, last.text), dryRun)
    // the generations and the result
    ensures CycleGenerations(texts, chosen, news, rolls, first, last, mode)
    ensures rm.calls == old(rm.calls) + CallsOf(first) + last.made
    ensures last.Valid(rm.keys, backend) && (first.Some? ==> first.value.Valid(rm.keys, backend))
    ensures result.BotSuccess? <==> TextOrEmpty(last.text) != ""
    ensures result.BotSuccess? ==> result.mode == mode && result.tweet == TweetFrom(mode, news, last.text)
    ensures result.BotSuccess? ==> result.tweet != "" && (result.mode == chosen || result.mode == Tip)
    ensures result.BotSuccess? && result.mode == News ==>
      news.Some? && exists hook :: hook != "" && result.tweet == NewsTweet(hook, news.value.url)
    ensures result.BotError? ==> result == BotError("Failed to generate content") && posts == [] && saved == None
    // posting and saving
    ensures dryRun ==> posts == [] && saved == None
    ensures !dryRun && result.BotSuccess? ==> posts == [Twitter.Expected(Some(result.tweet), client)]
    ensures saved.Some? <==> !dryRun && result.BotSuccess? && posts[0].posted
    ensures saved.Some? ==> saved.value == SavedState(result.mode.Name(), timestamp)
  {
    logger.Log(WakingUp);
    logger.Log(PreviousMode(PreviousModeText(lastMode)));
    ghost var opening := logger.entries;
    assert opening == old(logger.entries) + [WakingUp, PreviousMode(PreviousModeText(lastMode))];

    chosen := PickMode(lastMode, modeRoll);
    var tweet;
    ghost var composed, published;
    tweet, mode, first, last, composed := Compose(texts, chosen, news, rolls, rm, backend, logger);
    result, posts, saved, published := Publish(tweet, mode, dryRun, client, timestamp, logger);
    if result.BotSuccess? && result.mode == News {
      assert result.tweet == NewsTweet(last.text.value, news.value.url);
    }
    middle := composed + published;
    Gemini.AppendAssoc(opening, composed, published);
    logger.Log(CycleComplete);
  }
}
