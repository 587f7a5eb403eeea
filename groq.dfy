/** The conversation state and text handling of the Groq chat translator:
    the configuration lookup, the bounded message history that each request
    updates in place, the token counters, the clean-up of a reply and the
    per-query translation loop. The chat-completion service itself is a
    function the caller supplies. */
module Groq {
  import opened Wrappers
  import opened PyText

  datatype Role = System | User | Assistant

  datatype Message = Message(role: Role, content: string)

  /** What one chat-completion call sends: the model name, the messages, the
      token cap and the stop sequences. */
  datatype ChatRequest = ChatRequest(model: string, messages: seq<Message>, maxTokens: nat, stop: seq<string>)

  /** What the service answers: the first choice's text and the total token
      usage of the call. */
  datatype Completion = Completion(content: string, totalTokens: nat)

  /** The translator's counters and history, as values. */
  datatype Conversation = Conversation(messages: seq<Message>, tokenCount: nat, tokenCountLast: nat)

  /** What a request depends on besides the conversation: the retention switch
      and window size read from the environment at start-up, the model name,
      and the system template after the configuration lookup. */
  datatype Settings = Settings(contextRetention: bool, maxContext: int, model: string, systemTemplate: string)

  const ConfigKey: string := "groq"
  const MaxTokens: nat := 8192
  /** The assistant turn appended before a request, so that the reply continues it. */
  const Prefill: string := "{'translated':'"
  /** The stop sequence passed with every request. */
  const StopSequence: string := "'}"
  /** The characters stripped from both ends of a cleaned reply. */
  const ReplyQuotes: set<char> := {'\'', '{', '}'}

  /** The configuration lookup: a key prefixed with `groq.` wins over the
      bare key, and the default is used when neither is present or there is
      no configuration at all. */
  function ConfigGet<V>(config: Option<map<string, V>>, key: string, default: V): (r: V)
    ensures config.Some? && ConfigKey + "." + key in config.value ==> r == config.value[ConfigKey + "." + key]
    ensures config.Some? && ConfigKey + "." + key !in config.value && key in config.value ==> r == config.value[key]
    ensures config.None? || (ConfigKey + "." + key !in config.value && key !in config.value) ==> r == default
  {
    if config.None? || config.value == map[] then default
    else
      var plain := if key in config.value then config.value[key] else default;
      if ConfigKey + "." + key in config.value then config.value[ConfigKey + "." + key] else plain
  }

  /** The user turn of a request. */
  function PromptWithLang(toLang: string, prompt: string): string
  {
    "Translate the following text into " + toLang + ". Return the result in JSON format.\n\n{\"untranslated\": \""
      + prompt + "\"}\n"
  }

  /** The system turn, with every `{to_lang}` in the template replaced. */
  function SystemMessage(template: string, toLang: string): Message
  {
    Message(System, Replace(template, "{to_lang}", toLang))
  }

  /** The history with the user turn and the assistant prefill appended. */
  function Appended(history: seq<Message>, userTurn: string): seq<Message>
  {
    history + [Message(User, userTurn), Message(Assistant, Prefill)]
  }

  /** The context window: when the history is longer than `maxContext` it is
      cut to `history[-maxContext:]`, with Python's reading of that slice. */
  function Window(history: seq<Message>, maxContext: int): seq<Message>
  {
    if |history| > maxContext then SliceFrom(history, -maxContext) else history
  }

  /** The request sent for a trimmed history. */
  function RequestFor(settings: Settings, window: seq<Message>, toLang: string): ChatRequest
  {
    ChatRequest(settings.model, [SystemMessage(settings.systemTemplate, toLang)] + window, MaxTokens / 2, [StopSequence])
  }

  /** The history once the reply is in: the prefill (`window[:-1]`) goes, then
      the reply takes its place with retention, or the user turn goes too
      (a second `[:-1]`) without. */
  function Settle(window: seq<Message>, contextRetention: bool, content: string): seq<Message>
  {
    var kept := SliceTo(window, -1);
    if contextRetention then kept + [Message(Assistant, content)] else SliceTo(kept, -1)
  }

  /** The reply clean-up: remove the prefill echo and every `}`, unescape
      quotes, then strip quotes and braces from both ends. */
  function Clean(content: string): string
  {
    var noPrefill := Replace(content, Prefill, "");
    var noBraces := Replace(noPrefill, "}", "");
    var quotes := Replace(noBraces, "\\'", "'");
    var doubleQuotes := Replace(quotes, "\\\"", "\"");
    Strip(doubleQuotes, ReplyQuotes)
  }

  /** What a reply does to the conversation: its stripped text settles the
      history, its token usage is counted, and the cleaned text is returned. */
  function Receive(contextRetention: bool, conv: Conversation, window: seq<Message>, reply: Completion)
    : (r: (Conversation, string))
    ensures r.0.tokenCountLast == reply.totalTokens
    ensures r.0.tokenCount == conv.tokenCount + r.0.tokenCountLast
  {
    var content := Strip(reply.content, Whitespace);
    (Conversation(Settle(window, contextRetention, content), conv.tokenCount + reply.totalTokens, reply.totalTokens),
     Clean(content))
  }

  /** One request: the new conversation and the cleaned reply. */
  function Exchange(settings: Settings, conv: Conversation, toLang: string, prompt: string,
                    complete: ChatRequest -> Completion): (Conversation, string)
  {
    var window := Window(Appended(conv.messages, PromptWithLang(toLang, prompt)), settings.maxContext);
    Receive(settings.contextRetention, conv, window, complete(RequestFor(settings, window, toLang)))
  }

  /** One query as a step from a conversation to the next conversation and
      the translation it yields. */
  type Step = (Conversation, string) -> (Conversation, string)

  /** The step `_translate` takes per query: a request, whose cleaned reply is
      then stripped of surrounding whitespace. */
  function RequestStep(settings: Settings, toLang: string, complete: ChatRequest -> Completion): Step
  {
    (conv, prompt) =>
      var (next, reply) := Exchange(settings, conv, toLang, prompt, complete);
      (next, Strip(reply, Whitespace))
  }

  lemma RequestStepApplied(settings: Settings, toLang: string, complete: ChatRequest -> Completion,
                           conv: Conversation, prompt: string)
    ensures var (next, reply) := Exchange(settings, conv, toLang, prompt, complete);
      RequestStep(settings, toLang, complete)(conv, prompt) == (next, Strip(reply, Whitespace))
  {
  }

  /** Running `queries` one step after another: the translations, in query
      order, and the final conversation. */
  function RunQueries(step: Step, conv: Conversation, queries: seq<string>): (seq<string>, Conversation)
    decreases |queries|
  {
    if queries == [] then ([], conv)
    else
      var (done, mid) := RunQueries(step, conv, queries[..|queries| - 1]);
      var (next, translation) := step(mid, queries[|queries| - 1]);
      (done + [translation], next)
  }

  /** The role a message `k` places from the end of an alternating history
      must have (the last message is `k == 1`). */
  function RoleFromEnd(k: nat): Role
  {
    if k % 2 == 1 then Assistant else User
  }

  /** User and assistant turns alternate, and the history ends with an
      assistant turn. */
  predicate Alternating(history: seq<Message>)
  {
    forall i :: 0 <= i < |history| ==> history[i].role == RoleFromEnd(|history| - i)
  }

  /** The counters and history a translator keeps between requests. */
  predicate Consistent(conv: Conversation)
  {
    conv.tokenCountLast <= conv.tokenCount && Alternating(conv.messages)
  }

  lemma AlternatingSuffix(history: seq<Message>, j: nat)
    requires Alternating(history) && j <= |history|
    ensures Alternating(history[j..])
  {
    forall i | 0 <= i < |history| - j ensures history[j..][i].role == RoleFromEnd(|history| - j - i) {
      assert history[j..][i] == history[j + i];
    }
  }

  /** The appended turns keep the history alternating. */
  lemma AppendedAlternating(history: seq<Message>, userTurn: string)
    requires Alternating(history)
    ensures Alternating(Appended(history, userTurn))
  {
    var a := Appended(history, userTurn);
    forall i | 0 <= i < |a| ensures a[i].role == RoleFromEnd(|a| - i) {
      if i < |history| {
        assert a[i] == history[i];
        assert RoleFromEnd(|a| - i) == RoleFromEnd(|history| - i);
      }
    }
  }

  /** The window is always a suffix of the history; for `maxContext >= 1` it
      holds the last `min(|history|, maxContext)` turns, and for
      `maxContext == 0` it is the whole history. */
  lemma WindowIsSuffix(history: seq<Message>, maxContext: int)
    ensures |Window(history, maxContext)| <= |history|
    ensures Window(history, maxContext) == history[|history| - |Window(history, maxContext)|..]
    ensures maxContext >= 1 ==> |Window(history, maxContext)| == if |history| < maxContext then |history| else maxContext
    ensures maxContext == 0 ==> Window(history, maxContext) == history
  {
    if |history| > maxContext {
      SliceFromNegated(history, if maxContext >= 0 then maxContext else 0);
    }
  }

  /** After the append-and-trim step the history is a suffix of the old
      history followed by the new user turn and the prefill, and for a window
      of at least one message its length is `min(|history| + 2, maxContext)`. */
  lemma WindowAfterAppend(history: seq<Message>, userTurn: string, maxContext: int)
    ensures var a := Appended(history, userTurn);
      var w := Window(a, maxContext);
      |w| <= |a| && w == a[|a| - |w|..]
      && (maxContext >= 1 ==> |w| == if |history| + 2 < maxContext then |history| + 2 else maxContext)
      && (maxContext == 0 ==> w == a)
  {
    WindowIsSuffix(Appended(history, userTurn), maxContext);
  }

  /** Every request sends the system turn first, then the window, with a cap
      of 4096 tokens and `'}` as the stop sequence; the last message sent is
      the prefill unless a negative window size has dropped it, and with a
      window of two or more (or zero, which does not trim) the user turn
      comes just before it. */
  lemma RequestShape(settings: Settings, history: seq<Message>, userTurn: string, toLang: string)
    ensures var w := Window(Appended(history, userTurn), settings.maxContext);
      var req := RequestFor(settings, w, toLang);
      req.messages[0] == SystemMessage(settings.systemTemplate, toLang) && req.messages[1..] == w
      && req.maxTokens == 4096 && req.stop == ["'}"]
      && (settings.maxContext >= 0 ==> req.messages[|req.messages| - 1] == Message(Assistant, Prefill))
      && (settings.maxContext >= 2 || settings.maxContext == 0 ==>
            req.messages[|req.messages| - 2] == Message(User, userTurn))
  {
    var a := Appended(history, userTurn);
    WindowIsSuffix(a, settings.maxContext);
    var w := Window(a, settings.maxContext);
    if settings.maxContext >= 0 {
      assert |w| >= 1;
      assert w[|w| - 1] == a[|a| - 1];
    }
    if settings.maxContext >= 2 || settings.maxContext == 0 {
      assert |w| >= 2;
      assert w[|w| - 2] == a[|a| - 2];
    }
  }

  /** With a window of one message the request carries only the prefill:
      the user turn has already been trimmed away. */
  lemma SingleTurnWindowIsPrefill(history: seq<Message>, userTurn: string)
    ensures Window(Appended(history, userTurn), 1) == [Message(Assistant, Prefill)]
  {
    var a := Appended(history, userTurn);
    WindowIsSuffix(a, 1);
  }

  /** The window as a suffix of the appended history, given by where it starts. */
  lemma WindowStart(history: seq<Message>, userTurn: string, maxContext: int) returns (start: nat)
    ensures var a := Appended(history, userTurn);
      start <= |a| && Window(a, maxContext) == a[start..]
      && (maxContext >= 1 ==> |a| - start == if |history| + 2 < maxContext then |history| + 2 else maxContext)
  {
    var a := Appended(history, userTurn);
    WindowIsSuffix(a, maxContext);
    start := |a| - |Window(a, maxContext)|;
  }

  /** Without context retention a request leaves no trace in the history:
      whatever the window size, the history afterwards is a suffix of the
      history before, so it can only have lost its oldest turns. */
  lemma HistoryWithoutRetentionIsSuffix(history: seq<Message>, userTurn: string, maxContext: int, content: string)
    ensures var after := Settle(Window(Appended(history, userTurn), maxContext), false, content);
      |after| <= |history| && after == history[|history| - |after|..]
  {
    var a := Appended(history, userTurn);
    var start := WindowStart(history, userTurn, maxContext);
    var w := a[start..];
    var kept := SliceTo(w, -1);
    DropLastOfEmptyOrNot(w);
    DropLastOfEmptyOrNot(kept);
    if |w| >= 2 {
      assert SliceTo(kept, -1) == w[..|w| - 2];
      assert w[..|w| - 2] == history[start..];
    }
  }

  /** With a window of at least two, the history without retention keeps
      `min(|history|, maxContext - 2)` turns, and when the two new turns fit
      it comes back unchanged. */
  lemma HistoryWithoutRetention(history: seq<Message>, userTurn: string, maxContext: int, content: string)
    requires maxContext >= 2
    ensures var after := Settle(Window(Appended(history, userTurn), maxContext), false, content);
      |after| == (if |history| + 2 < maxContext then |history| else maxContext - 2)
    ensures |history| + 2 <= maxContext ==>
      Settle(Window(Appended(history, userTurn), maxContext), false, content) == history
  {
    var a := Appended(history, userTurn);
    var start := WindowStart(history, userTurn, maxContext);
    HistoryWithoutRetentionIsSuffix(history, userTurn, maxContext, content);
    var w := a[start..];
    var kept := SliceTo(w, -1);
    DropLastOfEmptyOrNot(w);
    DropLastOfEmptyOrNot(kept);
  }

  /** With context retention and a window of at least two, the history ends
      with the user turn and the reply, keeps `min(|history| + 2, maxContext)`
      turns, and what precedes the new pair is a suffix of the old history. */
  lemma HistoryWithRetention(history: seq<Message>, userTurn: string, maxContext: int, content: string)
    requires maxContext >= 2
    ensures var after := Settle(Window(Appended(history, userTurn), maxContext), true, content);
      |after| == (if |history| + 2 < maxContext then |history| + 2 else maxContext)
      && after[|after| - 2..] == [Message(User, userTurn), Message(Assistant, content)]
      && after[..|after| - 2] == history[|history| - (|after| - 2)..]
  {
    var a := Appended(history, userTurn);
    var start := WindowStart(history, userTurn, maxContext);
    var w := a[start..];
    assert |w| >= 2;
    DropLastOfEmptyOrNot(w);
    var kept := SliceTo(w, -1);
    assert kept == w[..|w| - 1];
    assert kept[|kept| - 1] == Message(User, userTurn);
    assert kept[..|kept| - 1] == history[start..];
  }

  /** Turns alternate and the history ends with a user turn (or is empty). */
  predicate AwaitingReply(history: seq<Message>)
  {
    forall i :: 0 <= i < |history| ==> history[i].role == RoleFromEnd(|history| - i + 1)
  }

  lemma DropReplyAwaits(history: seq<Message>)
    requires Alternating(history)
    ensures AwaitingReply(SliceTo(history, -1))
  {
    DropLastOfEmptyOrNot(history);
    var kept := SliceTo(history, -1);
    forall i | 0 <= i < |kept| ensures kept[i].role == RoleFromEnd(|kept| - i + 1) {
      assert kept[i] == history[i];
    }
  }

  lemma ReplyCompletes(history: seq<Message>, content: string)
    requires AwaitingReply(history)
    ensures Alternating(history + [Message(Assistant, content)])
  {
    var h := history + [Message(Assistant, content)];
    forall i | 0 <= i < |h| ensures h[i].role == RoleFromEnd(|h| - i) {
      if i < |history| {
        assert h[i] == history[i];
      }
    }
  }

  lemma DropQueryRestores(history: seq<Message>)
    requires AwaitingReply(history)
    ensures Alternating(SliceTo(history, -1))
  {
    DropLastOfEmptyOrNot(history);
    var kept := SliceTo(history, -1);
    forall i | 0 <= i < |kept| ensures kept[i].role == RoleFromEnd(|kept| - i) {
      assert kept[i] == history[i];
    }
  }

  /** Whatever the window size (negative, zero or positive), the retention
      switch and the reply, an alternating history stays alternating. */
  lemma SettleKeepsAlternating(history: seq<Message>, userTurn: string, maxContext: int,
                               contextRetention: bool, content: string)
    requires Alternating(history)
    ensures Alternating(Settle(Window(Appended(history, userTurn), maxContext), contextRetention, content))
  {
    var a := Appended(history, userTurn);
    AppendedAlternating(history, userTurn);
    WindowIsSuffix(a, maxContext);
    var w := Window(a, maxContext);
    AlternatingSuffix(a, |a| - |w|);
    DropReplyAwaits(w);
    if contextRetention {
      ReplyCompletes(SliceTo(w, -1), content);
    } else {
      DropQueryRestores(SliceTo(w, -1));
    }
  }

  /** A request keeps the conversation consistent: the history alternating
      and the total token count at least the last one. */
  lemma ExchangeKeepsConsistent(settings: Settings, conv: Conversation, toLang: string, prompt: string,
                                complete: ChatRequest -> Completion)
    requires Consistent(conv)
    ensures Consistent(Exchange(settings, conv, toLang, prompt, complete).0)
  {
    var userTurn := PromptWithLang(toLang, prompt);
    var window := Window(Appended(conv.messages, userTurn), settings.maxContext);
    var content := Strip(complete(RequestFor(settings, window, toLang)).content, Whitespace);
    SettleKeepsAlternating(conv.messages, userTurn, settings.maxContext, settings.contextRetention, content);
  }

  /** Each request adds the reply's total token usage to the running count
      and records it as the last count; the returned text is the cleaned form
      of the whitespace-stripped reply. */
  lemma ExchangeCountsTokens(settings: Settings, conv: Conversation, toLang: string, prompt: string,
                             complete: ChatRequest -> Completion)
    ensures var window := Window(Appended(conv.messages, PromptWithLang(toLang, prompt)), settings.maxContext);
      var reply := complete(RequestFor(settings, window, toLang));
      var (next, cleaned) := Exchange(settings, conv, toLang, prompt, complete);
      next.tokenCountLast == reply.totalTokens && next.tokenCount == conv.tokenCount + reply.totalTokens
      && cleaned == Clean(Strip(reply.content, Whitespace))
  {
  }

  /** The cleaned reply holds no `}`, and a non-empty one neither starts nor
      ends with a quote or a brace. */
  lemma CleanHasNoBraceAtAll(content: string)
    ensures '}' !in Clean(content)
    ensures Clean(content) != [] ==>
      Clean(content)[0] !in ReplyQuotes && Clean(content)[|Clean(content)| - 1] !in ReplyQuotes
  {
    var noPrefill := Replace(content, Prefill, "");
    var noBraces := Replace(noPrefill, "}", "");
    DeleteCharRemovesAll(noPrefill, '}');
    var quotes := Replace(noBraces, "\\'", "'");
    ReplaceKeepsAbsence(noBraces, "\\'", "'", '}');
    var doubleQuotes := Replace(quotes, "\\\"", "\"");
    ReplaceKeepsAbsence(quotes, "\\\"", "\"", '}');
    StripKeepsAbsence(doubleQuotes, ReplyQuotes, '}');
    var _ := StripIsTrimmedSlice(doubleQuotes, ReplyQuotes);
  }

  lemma RunQueriesSnoc(step: Step, conv: Conversation, queries: seq<string>, q: string)
    ensures var (done, mid) := RunQueries(step, conv, queries);
      var (next, t) := step(mid, q);
      RunQueries(step, conv, queries + [q]) == (done + [t], next)
  {
    assert (queries + [q])[..|queries|] == queries;
  }

  /** One more request after `queries`: its stripped reply joins the
      translations and its conversation becomes the current one. */
  lemma TranslateStep(settings: Settings, toLang: string, complete: ChatRequest -> Completion,
                      start: Conversation, queries: seq<string>, q: string,
                      done: seq<string>, mid: Conversation, next: Conversation, cleaned: string)
    requires (done, mid) == RunQueries(RequestStep(settings, toLang, complete), start, queries)
    requires (next, cleaned) == Exchange(settings, mid, toLang, q, complete)
    ensures (done + [Strip(cleaned, Whitespace)], next) == RunQueries(RequestStep(settings, toLang, complete), start, queries + [q])
  {
    RequestStepApplied(settings, toLang, complete, mid, q);
    RunQueriesSnoc(RequestStep(settings, toLang, complete), start, queries, q);
  }

  /** One reply per query. */
  lemma {:induction false} RunQueriesLength(step: Step, conv: Conversation, queries: seq<string>)
    ensures |RunQueries(step, conv, queries).0| == |queries|
    decreases |queries|
  {
    if queries != [] {
      RunQueriesLength(step, conv, queries[..|queries| - 1]);
    }
  }

  /** Running `first + second` is running `first`, then `second` from where
      the first left the conversation: the requests are sequential. */
  lemma {:induction false} RunQueriesSplit(step: Step, conv: Conversation, first: seq<string>, second: seq<string>)
    ensures var (r1, mid) := RunQueries(step, conv, first);
      var (r2, last) := RunQueries(step, mid, second);
      RunQueries(step, conv, first + second) == (r1 + r2, last)
    decreases |second|
  {
    if second == [] {
      assert first + second == first;
      var (r1, mid) := RunQueries(step, conv, first);
      assert RunQueries(step, mid, second) == ([], mid);
      assert r1 + [] == r1;
    } else {
      var init, q := second[..|second| - 1], second[|second| - 1];
      RunQueriesSplit(step, conv, first, init);
      var (r1, mid) := RunQueries(step, conv, first);
      var (r2, before) := RunQueries(step, mid, init);
      var (after, t) := step(before, q);
      assert (first + second)[..|first + second| - 1] == first + init;
      assert (first + second)[|first + second| - 1] == q;
      assert RunQueries(step, conv, first + init) == (r1 + r2, before);
      assert RunQueries(step, conv, first + second) == (r1 + r2 + [t], after);
      assert RunQueries(step, mid, second) == (r2 + [t], after);
      assert r1 + r2 + [t] == r1 + (r2 + [t]);
    }
  }

  /** The `i`-th translation is the one the step yields for the `i`-th
      query, from the conversation the first `i` queries left behind. */
  lemma RunQueriesAt(step: Step, conv: Conversation, queries: seq<string>, i: nat)
    requires i < |queries|
    ensures |RunQueries(step, conv, queries).0| == |queries|
    ensures RunQueries(step, conv, queries).0[i] == step(RunQueries(step, conv, queries[..i]).1, queries[i]).1
  {
    RunQueriesLength(step, conv, queries);
    RunQueriesLength(step, conv, queries[..i]);
    RunQueriesSplit(step, conv, queries[..i + 1], queries[i + 1..]);
    assert queries[..i + 1] + queries[i + 1..] == queries;
    assert queries[..i + 1][..i] == queries[..i];
  }

  /** `_translate` answers query `i` with the stripped, cleaned reply to a
      request made from the conversation the earlier queries left behind. */
  lemma TranslationsInQueryOrder(settings: Settings, conv: Conversation, toLang: string, queries: seq<string>,
                                 complete: ChatRequest -> Completion, i: nat)
    requires i < |queries|
    ensures var step := RequestStep(settings, toLang, complete);
      |RunQueries(step, conv, queries).0| == |queries|
      && RunQueries(step, conv, queries).0[i]
         == Strip(Exchange(settings, RunQueries(step, conv, queries[..i]).1, toLang, queries[i], complete).1,
                  Whitespace)
  {
    RunQueriesAt(RequestStep(settings, toLang, complete), conv, queries, i);
  }

  /** A run of steps that each keep the conversation consistent and never
      lower the total token count does the same. */
  lemma {:induction false} RunQueriesKeepsConsistent(step: Step, conv: Conversation, queries: seq<string>)
    requires forall c: Conversation, q: string :: Consistent(c) ==>
      Consistent(step(c, q).0) && step(c, q).0.tokenCount >= c.tokenCount
    requires Consistent(conv)
    ensures Consistent(RunQueries(step, conv, queries).1)
    ensures RunQueries(step, conv, queries).1.tokenCount >= conv.tokenCount
    decreases |queries|
  {
    if queries != [] {
      RunQueriesKeepsConsistent(step, conv, queries[..|queries| - 1]);
    }
  }

  /** `_translate` keeps the conversation consistent and never lowers the
      total token count. */
  lemma TranslateKeepsConsistent(settings: Settings, conv: Conversation, toLang: string, queries: seq<string>,
                                 complete: ChatRequest -> Completion)
    requires Consistent(conv)
    ensures Consistent(RunQueries(RequestStep(settings, toLang, complete), conv, queries).1)
    ensures RunQueries(RequestStep(settings, toLang, complete), conv, queries).1.tokenCount >= conv.tokenCount
  {
    var step := RequestStep(settings, toLang, complete);
    forall c: Conversation, q: string | Consistent(c)
      ensures Consistent(step(c, q).0) && step(c, q).0.tokenCount >= c.tokenCount
    {
      ExchangeKeepsConsistent(settings, c, toLang, q, complete);
    }
    RunQueriesKeepsConsistent(step, conv, queries);
  }

  /** The translator object: its counters and history change in place. */
  class GroqTranslator {
    const contextRetention: bool
    const maxContext: int
    const model: string
    /** The built-in system template, used unless the configuration overrides it. */
    const defaultSystemTemplate: string

    var tokenCount: nat
    var tokenCountLast: nat
    var config: Option<map<string, string>>
    var messages: seq<Message>

    ghost predicate Valid()
      reads this
    {
      Consistent(State())
    }

    function State(): Conversation
      reads this
    {
      Conversation(messages, tokenCount, tokenCountLast)
    }

    /** The `chat_system_template` property. */
    function ChatSystemTemplate(): string
      reads this`config
    {
      ConfigGet(config, "chat_system_template", defaultSystemTemplate)
    }

    function CurrentSettings(): Settings
      reads this`config
    {
      Settings(contextRetention, maxContext, model, ChatSystemTemplate())
    }

    /** A new translator starts from the built-in sample exchange (the
        configuration is still unset, so the `chat_sample` property yields
        the built-in pair) with both counters at zero. */
    constructor (contextRetention: bool, maxContext: int, model: string, systemTemplate: string,
                 sampleQuery: string, sampleReply: string)
      ensures Valid()
      ensures messages == [Message(User, sampleQuery), Message(Assistant, sampleReply)]
      ensures tokenCount == 0 && tokenCountLast == 0 && config == None
      ensures this.contextRetention == contextRetention && this.maxContext == maxContext
      ensures this.model == model && defaultSystemTemplate == systemTemplate
    {
      this.contextRetention := contextRetention;
      this.maxContext := maxContext;
      this.model := model;
      defaultSystemTemplate := systemTemplate;
      tokenCount := 0;
      tokenCountLast := 0;
      config := None;
      messages := [Message(User, sampleQuery), Message(Assistant, sampleReply)];
    }

    /** `parse_args`: take the translator's configuration from the arguments. */
    method ParseArgs(groqConfig: Option<map<string, string>>)
      modifies this`config
      ensures config == groqConfig
    {
      config := groqConfig;
    }

    /** `_request_translation`: append the user turn and the prefill, trim to
        the window, ask the service, count its tokens, then replace the
        prefill by the reply (with retention) or drop the pair (without). */
    method RequestTranslation(toLang: string, prompt: string, complete: ChatRequest -> Completion)
      returns (cleaned: string)
      requires Valid()
      modifies this`messages, this`tokenCount, this`tokenCountLast
      ensures Valid()
      ensures (State(), cleaned) == Exchange(CurrentSettings(), old(State()), toLang, prompt, complete)
    {
      ghost var before := State();
      messages := messages + [Message(User, PromptWithLang(toLang, prompt)), Message(Assistant, Prefill)];
      if |messages| > maxContext {
        messages := SliceFrom(messages, -maxContext);
      }
      ghost var window := messages;
      assert window == Window(Appended(before.messages, PromptWithLang(toLang, prompt)), maxContext);
      var sanity := [SystemMessage(ChatSystemTemplate(), toLang)];
      var request := ChatRequest(model, sanity + messages, MaxTokens / 2, [StopSequence]);
      assert request == RequestFor(CurrentSettings(), window, toLang);
      var response := complete(request);
      tokenCount := tokenCount + response.totalTokens;
      tokenCountLast := response.totalTokens;
      var content := Strip(response.content, Whitespace);
      messages := SliceTo(messages, -1);
      if contextRetention {
        messages := messages + [Message(Assistant, content)];
      } else {
        messages := SliceTo(messages, -1);
      }
      cleaned := Clean(content);
      assert response == complete(request);
      assert messages == Settle(window, contextRetention, content);
      ghost var received := Receive(contextRetention, before, window, response);
      assert received.1 == cleaned;
      assert received.0.messages == messages;
      assert received.0.tokenCount == tokenCount;
      assert received.0.tokenCountLast == tokenCountLast;
      SettleKeepsAlternating(before.messages, PromptWithLang(toLang, prompt), maxContext, contextRetention, content);
    }

    /** The body of the `_translate` loop: one request, whose cleaned reply
        is stripped and becomes the next translation. */
    method TranslateNext(toLang: string, query: string, complete: ChatRequest -> Completion,
                         ghost start: Conversation, ghost earlier: seq<string>, ghost done: seq<string>)
      returns (translation: string)
      requires Valid()
      requires (done, State()) == RunQueries(RequestStep(CurrentSettings(), toLang, complete), start, earlier)
      modifies this`messages, this`tokenCount, this`tokenCountLast
      ensures Valid()
      ensures (done + [translation], State()) == RunQueries(RequestStep(CurrentSettings(), toLang, complete), start, earlier + [query])
    {
      ghost var mid := State();
      var response := RequestTranslation(toLang, query, complete);
      TranslateStep(CurrentSettings(), toLang, complete, start, earlier, query, done, mid, State(), response);
      translation := Strip(response, Whitespace);
    }

    /** `_translate`: one request per query, in order, collecting each
        cleaned reply stripped of surrounding whitespace. */
    method Translate(fromLang: string, toLang: string, queries: seq<string>, complete: ChatRequest -> Completion)
      returns (translations: seq<string>)
      requires Valid()
      modifies this`messages, this`tokenCount, this`tokenCountLast
      ensures Valid()
      ensures (translations, State()) == RunQueries(RequestStep(CurrentSettings(), toLang, complete), old(State()), queries)
    {
      translations := [];
      ghost var start := State();
      var i := 0;
      while i < |queries|
        invariant 0 <= i <= |queries|
        invariant Valid()
        invariant (translations, State()) == RunQueries(RequestStep(CurrentSettings(), toLang, complete), start, queries[..i])
      {
        var translation := TranslateNext(toLang, queries[i], complete, start, queries[..i], translations);
        translations := translations + [translation];
        assert queries[..i + 1] == queries[..i] + [queries[i]];
        i := i + 1;
      }
      assert queries[..i] == queries;
    }
  }
}
