# Manga translator dispatch and Groq conversation state, in Dafny

This project models two pieces of the manga image translator.

**The run dispatcher** (`dispatch` in `manga_translator/__main__.py`). The run mode selects one strategy:

- **demo and batch.** Check that input was given. Build one `MangaTranslator`. Load the pre- and post-translation dictionaries. Then translate the single demo image, or each path of `natural_sort(input)` in turn. After each successful `translate_path`, every text line's `text` is rewritten in place through the pre dictionary, then every `translation` through the post dictionary.
- **batch errors.** A failing batch item is swallowed and the loop moves on.
- **demo destination.** A demo run checks for exactly one existing file. It then forces `args.overwrite` and translates to `BASE_PATH/result/final.png`.
- **service modes.** `web` serves on host and port. `web_client`, `ws`, `api` and `shared` each build their worker and listen once. Any other mode does nothing.

The model is imperative. `Dispatcher.Dispatch` runs over an `Args` object whose only mutable field is `overwrite`. It uses a `Translator` object whose `TextLine` objects are rewritten in place. Its result is the event trace of what it did: construct, load dictionary, translate, rewrite text, rewrite translation, serve, listen, raise. That trace is proved equal to the pure `Dispatcher.DispatchTrace`, and the ordering, exactly-once and error-path properties are lemmas about `DispatchTrace`.

The collaborators are fields of `Dispatcher.Env`:

- `isfile`, `natural_sort` and `load_dictionary`;
- `apply_dictionary`;
- `translate_path`, which returns the lines it detected;
- `BASE_PATH`.

`load_dictionary` and `translate_path` answer `None` where the real call raises an `Exception`.

**The Groq translator** (`GroqTranslator` in `manga_translator/translators/groq.py`). It keeps a chat history, a total token count and the last token count. Each request works in these steps:

1. Append the user turn and the assistant prefill `{'translated':'`.
2. Trim the history to `messages[-_MAX_CONTEXT:]` using Python's slice rules, so `[-0:]` keeps everything.
3. Send the system turn plus the history to the chat service, with a 4096-token cap and the stop sequence `'}`.
4. Add the usage to the counters.
5. Drop the prefill. Then either put the whitespace-stripped reply in its place (with context retention), or drop the user turn too.
6. Return the reply cleaned by `replace`/`strip` as in the source.

The class `Groq.GroqTranslator` updates `messages`, `tokenCount` and `tokenCountLast` in place. `RequestTranslation` is proved equal to the pure `Groq.Exchange`, and `Translate` to the fold `Groq.RunQueries` of that step over the queries. Lemmas state:

- the history's length and suffix shape under the window;
- that user and assistant turns keep alternating, for every window size and both retention settings;
- the token accounting;
- the shape of every request;
- that the cleaned reply has no `}` and is trimmed of quotes and braces;
- that translations come one per query, in query order.

The chat service is a function `ChatRequest -> Completion` supplied by the caller.

`PyText` holds the Python semantics these rely on: slice index normalisation, `str.strip` with and without an argument (the 29 `isspace` code points), and `str.replace`.

Two facts about `dispatch` shape the model:

- **Demo validation comes after setup.** The translator is built and both dictionaries are loaded before the demo path is checked (`__main__.py:33-41`). `Dispatcher.SetupComesFirst` and `Dispatcher.DemoRejectsInvalidInput` state this order.
- **Demo errors propagate.** A `translate_path` error in demo mode propagates; only the batch loop has the `try`. The model ends such a demo trace with `Raise(TranslateFailed(path))`.

## Model

| member | source | states |
|---|---|---|
| Dispatcher.Dispatch | manga_translator/__main__.py:25-90 | the trace of a run is `DispatchTrace` of the arguments and collaborators; `args.overwrite` becomes true exactly when a demo run passes validation, and is otherwise unchanged |
| Dispatcher.RunLocal | manga_translator/__main__.py:30-71 | demo/batch: one translator built, then pre then post dictionary loaded, either load failure ends the run with that failure, then the mode's branch runs |
| Dispatcher.RunDemo | manga_translator/__main__.py:39-54 | an input that is not one existing file raises `InvalidDemoPath` with the space-joined inputs; otherwise overwrite is set, the one path is processed to the fixed destination, and a failing translation raises |
| Dispatcher.RunBatch | manga_translator/__main__.py:56-71 | the loop's trace is `BatchRun` of the paths: each path processed in order, a failing one contributing only its translate call |
| Dispatcher.Translator.Process | manga_translator/__main__.py:59-69 | one item: success iff `translate_path` succeeds; afterwards every line holds `apply(text, pre)` and `apply(translation, post)` of what was translated, and the events are `ItemTrace` |
| Dispatcher.Translator.TranslatePath | manga_translator/__main__.py:61 | on success the translator holds fresh, distinct text lines equal to the translation result; on failure its lines are untouched |
| Dispatcher.Translator.RewriteTexts | manga_translator/__main__.py:62-64 | every line's text is replaced by `apply(old text, dict)`, translations unchanged, one event per line in line order |
| Dispatcher.Translator.RewriteTranslations | manga_translator/__main__.py:67-69 | every line's translation is replaced by `apply(old translation, dict)`, texts unchanged, one event per line in line order |
| Dispatcher.PathJoin | manga_translator/__main__.py:42 | POSIX `os.path.join` for a relative tail, which is what line 42 passes: the base, then one `/` unless the base is empty or already ends in one, then the tail |
| Dispatcher.NoInputRaisesFirst | manga_translator/__main__.py:30-32 | demo/batch without input raise `NoInput` and do nothing else: nothing built, no dictionary loaded |
| Dispatcher.SetupComesFirst | manga_translator/__main__.py:33-37 | with input, the translator is built first and only once, the pre dictionary is loaded second and the post dictionary third (iff the pre load succeeded), no load happens later, and no translate call comes before them |
| Dispatcher.LocalTraceShape | manga_translator/__main__.py:33-38 | the demo/batch trace by outcome of the two loads: a failed load is the last event, otherwise setup followed by the mode's run |
| Dispatcher.DemoRejectsInvalidInput | manga_translator/__main__.py:39-41 | when both dictionaries load, demo with other than one input or a first path that is not a file raises after building and both loads, and makes no translate call |
| Dispatcher.DemoTranslatesOnceToFixedDest | manga_translator/__main__.py:42-46 | when both dictionaries load, a demo with one existing file makes exactly one translate call, on its input, to `BASE_PATH/result/final.png`, and its trace does not depend on `args.dest` |
| Dispatcher.BatchTranslatesSortedInput | manga_translator/__main__.py:57-61 | when both dictionaries load, batch calls translate once for each element of `natural_sort(input)`, in that order, always with `args.dest`, whichever items fail |
| Dispatcher.BatchTranslatesInOrder | manga_translator/__main__.py:58-61 | the batch loop's translate calls are exactly `(paths[i], dest)` for each `i` in order |
| Dispatcher.BatchRunSplit | manga_translator/__main__.py:58-71 | the loop over `a + b` is the loop over `a` followed by the loop over `b`: an item's events never depend on whether earlier items failed |
| Dispatcher.BatchRunOnlyItems | manga_translator/__main__.py:58-71 | the batch loop only translates and rewrites; it never raises, builds or loads |
| Dispatcher.ModeRunEvents | manga_translator/__main__.py:39-71 | after the dictionaries nothing is built or loaded; only the last event may be an exception, and batch raises no `Exception` |
| Dispatcher.RaiseOnlyAtEnd | manga_translator/__main__.py:30-71 | in every mode an exception can only be the last event; batch with both dictionaries loaded returns normally whatever `Exception` its items raise |
| Dispatcher.ItemTranslatesOnce | manga_translator/__main__.py:61 | each item makes exactly one translate call, on its path and destination |
| Dispatcher.ItemRewritesInOrder | manga_translator/__main__.py:62-69 | after a successful translate, text `k` is rewritten once at position `1+k`, and only after all texts translation `k` is rewritten once, each through its own dictionary |
| Dispatcher.ItemRewritesInOrderShape | manga_translator/__main__.py:59-69 | an item's events are its translate call and rewrites only |
| Dispatcher.TranslateCallsAppend | manga_translator/__main__.py:58-61 | the translate calls of a concatenated trace are those of each part, in order |
| Dispatcher.NoTranslateCalls | manga_translator/__main__.py:58-61 | a trace without translate events has no translate calls |
| Dispatcher.ServiceModes | manga_translator/__main__.py:73-90 | web serves once on (host, port); web_client, ws, api and shared build their own worker once and listen once; other modes do nothing |
| Groq.ConfigGet | manga_translator/translators/groq.py:83-86 | `groq.<key>` wins over `<key>`, which wins over the default; the default also when there is no configuration |
| Groq.GroqTranslator.constructor | manga_translator/translators/groq.py:65-76 | counters zero, no configuration, history is the sample user turn then the sample assistant turn, and the history invariant holds |
| Groq.GroqTranslator.ParseArgs | manga_translator/translators/groq.py:80-81 | the configuration becomes the given `groq_config`, nothing else changes |
| Groq.GroqTranslator.RequestTranslation | manga_translator/translators/groq.py:126-168 | the new counters and history and the returned text are `Exchange` of the old state; the history invariant is kept |
| Groq.GroqTranslator.Translate | manga_translator/translators/groq.py:116-124 | the translations and the final state are the fold `RunQueries` of one request per query over the old state; the invariant is kept |
| Groq.GroqTranslator.TranslateNext | manga_translator/translators/groq.py:118-122 | one loop step: the fold over the earlier queries extended by this query's request and stripped reply |
| Groq.Receive | manga_translator/translators/groq.py:151-152 | the last count becomes the reply's `total_tokens`, and the total grows by exactly that amount |
| Groq.ExchangeCountsTokens | manga_translator/translators/groq.py:151-152 | a request adds the reply's total tokens to the count, sets the last count to it, and returns the clean-up of the stripped reply |
| Groq.WindowIsSuffix | manga_translator/translators/groq.py:134-135 | the window is a suffix of the history, of length `min(len, maxContext)` for a positive size and the whole history for size zero |
| Groq.WindowAfterAppend | manga_translator/translators/groq.py:129-135 | after append-and-trim the history is a suffix of `old + [user, prefill]` of length `min(len(old) + 2, maxContext)` for a positive size |
| Groq.RequestShape | manga_translator/translators/groq.py:137-148 | each request is the system turn with `{to_lang}` replaced, then the window; cap 4096, stop `'}`; the prefill last and the user turn before it when the window allows |
| Groq.HistoryWithoutRetentionIsSuffix | manga_translator/translators/groq.py:129-164 | for every window size, without retention the history after a request is a suffix of the old one: it only lost its oldest turns |
| Groq.HistoryWithoutRetention | manga_translator/translators/groq.py:129-164 | with a window of at least two and no retention, the history keeps `min(len(old), maxContext - 2)` turns, and is unchanged when `len(old) + 2 <= maxContext` |
| Groq.SingleTurnWindowIsPrefill | manga_translator/translators/groq.py:129-135 | with `CONTEXT_LENGTH=1` the trimmed history sent is only the assistant prefill; the user turn is cut |
| Groq.HistoryWithRetention | manga_translator/translators/groq.py:129-162 | with retention and a window of at least two, the history ends with `[user turn, reply]`, has length `min(len(old) + 2, maxContext)`, and before the pair is a suffix of the old history |
| Groq.AlternatingSuffix | manga_translator/translators/groq.py:134-135 | trimming an alternating history to a suffix keeps it alternating |
| Groq.AppendedAlternating | manga_translator/translators/groq.py:129-132 | appending the user turn and the prefill keeps the history alternating |
| Groq.DropReplyAwaits | manga_translator/translators/groq.py:156 | dropping the last turn of an alternating history leaves it ending with a user turn |
| Groq.ReplyCompletes | manga_translator/translators/groq.py:159-162 | appending the reply to a history awaiting one makes it alternating again |
| Groq.DropQueryRestores | manga_translator/translators/groq.py:163-164 | dropping the pending user turn makes the history alternating again |
| Groq.SettleKeepsAlternating | manga_translator/translators/groq.py:129-164 | for every window size, retention setting and reply, an alternating history stays alternating across a request |
| Groq.ExchangeKeepsConsistent | manga_translator/translators/groq.py:126-164 | a request keeps the history alternating and the total at least the last count |
| Groq.CleanHasNoBraceAtAll | manga_translator/translators/groq.py:167 | the cleaned reply contains no `}`, and a non-empty one neither starts nor ends with `'`, `{` or `}` |
| Groq.RunQueriesLength | manga_translator/translators/groq.py:117-122 | one translation per query |
| Groq.RunQueriesSplit | manga_translator/translators/groq.py:118-122 | the queries are answered sequentially: a run over `first + second` is a run over `first`, then over `second` from where it left off |
| Groq.RunQueriesAt | manga_translator/translators/groq.py:118-122 | translation `i` is the step's answer to query `i` from the state the first `i` queries left |
| Groq.TranslationsInQueryOrder | manga_translator/translators/groq.py:116-124 | `_translate` returns one string per query, the `i`-th being the stripped result of query `i`'s request made after the earlier ones |
| Groq.RunQueriesKeepsConsistent | manga_translator/translators/groq.py:116-122 | steps that keep the invariant and never lower the total keep both over any number of queries |
| Groq.TranslateKeepsConsistent | manga_translator/translators/groq.py:116-124 | `_translate` keeps the history alternating and never lowers the total token count |
| PyText.SliceIndex | manga_translator/translators/groq.py:135 | Python's slice index: a negative one counts from the end, the result clamped to `0..len` |
| PyText.SliceFromNegated | manga_translator/translators/groq.py:135 | `s[-k:]` keeps the last `min(k, len)` elements for `k >= 1`, and `s[-0:]` is all of `s` |
| PyText.DropLastOfEmptyOrNot | manga_translator/translators/groq.py:156 | `s[:-1]` is every element but the last, and the empty list for the empty list |
| PyText.StripStartIsLongestSuffix | manga_translator/translators/groq.py:155 | `lstrip` removes only characters of the set, and the first one it keeps is not in the set |
| PyText.StripEndIsLongestPrefix | manga_translator/translators/groq.py:155 | `rstrip` removes only characters of the set, and the last one it keeps is not in the set |
| PyText.StripIsTrimmedSlice | manga_translator/translators/groq.py:167 | `strip` keeps a contiguous piece, removes only characters of the set on each side, and leaves neither end in the set |
| PyText.StripKeepsAbsence | manga_translator/translators/groq.py:167 | stripping adds no character |
| PyText.ReplaceKeepsAbsence | manga_translator/translators/groq.py:167 | a character in neither the input nor the replacement is not in the result |
| PyText.DeleteCharRemovesAll | manga_translator/translators/groq.py:167 | `replace(c, '')` removes every `c` and keeps every other character as often as before |
| PyText.ReplaceAbsentIsIdentity | manga_translator/translators/groq.py:138 | a template without `{to_lang}` is sent unchanged |

## Left out

- The Groq client, the API-key check and the network call. The call is a function from the request to its content and total token count, so the model assumes the service answers deterministically and always succeeds; a raised error is not modelled.
- `asyncio` and `await`. Every call is sequential, so awaiting is an ordinary call.
- Environment reads for `CONTEXT_RETENTION`, `CONTEXT_LENGTH` and `GROQ_MODEL`. They are constructor parameters. Any integer window size is allowed, including zero and negative ones, with Python's slice meaning.
- `temperature` and `top_p`, which are floats passed through to the service.
- The system template and sample texts. They are constructor parameters, and the configuration can override the template by key. `_LANGUAGE_CODE_MAP` is unused in this file.
- Configuration values other than strings. `chat_sample` is read only at construction, when there is no configuration, so its built-in value is a constructor parameter.
- `_format_prompt_log` and every logger call. They only log.
- The `__main__` block (`__main__.py:94-111`): argument parsing, logging setup and the top-level exception handler. This is process-level I/O.
- The internals of `MangaTranslator`, its web, websocket and API variants, `MangaShare`, the web server's `dispatch`, `natural_sort`, `load_dictionary` and `apply_dictionary`. They are supplied functions, and nothing is claimed about them. In particular, `natural_sort` is not claimed to be a permutation.
- A worker's constructor raising, and a service's `listen` or `serve` raising. Only the dictionary loads and `translate_path` are modelled as able to raise.
- Dispatcher.Translator.Process: `apply_dictionary` is a total function, so a rewrite that raises halfway through a batch item is not modelled. Such an item would be swallowed with some lines already rewritten.
- Dispatcher.Translator.TranslatePath: `translate_path` is a function of the path and destination only, and the lines it leaves are fresh objects. What it renders to disk and any state it keeps between calls are not modelled.
- Dispatcher.Dispatch: the keyword arguments passed on to workers (`args_dict`) are not recorded in the trace.
- Dispatcher.RaiseOnlyAtEnd: `translate_path` and `load_dictionary` answering `None` stands for an `Exception`. A `KeyboardInterrupt`, `SystemExit` or `asyncio.CancelledError` is a `BaseException`, which the batch loop's `except Exception` (`__main__.py:70`) does not catch; it would end the loop and escape `dispatch`. Interrupts and task cancellation are not modelled.
- Dispatcher.ModeRunEvents: the same holds here; "batch raises no `Exception`" does not cover interrupts or task cancellation.
