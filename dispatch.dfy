/** The command-line dispatcher: the run mode selects one strategy. Demo and
    batch runs build one translator, load the pre- and post-translation
    dictionaries, translate each input path and rewrite the resulting text
    lines in place through those dictionaries; service modes start one
    worker. Everything the dispatcher calls but does not define (file
    checks, sorting, dictionary loading and use, translation of an image)
    is a function the caller supplies, and what the dispatcher does is
    recorded as a trace of events. */
module Dispatcher {
  import opened Wrappers

  /** What `load_dictionary` returns; only `apply_dictionary` looks inside it. */
  type Dictionary = seq<(string, string)>

  /** A detected text line as `translate_path` leaves it: source text and translation. */
  datatype LineData = LineData(text: string, translation: string)

  /** The worker classes a mode can construct. */
  datatype Worker = MangaTranslator | MangaTranslatorWeb | MangaTranslatorWS | MangaTranslatorAPI | MangaShare

  datatype Stage = Pre | Post

  /** Why a run stopped with an exception. */
  datatype Failure =
    | NoInput                            // `-i` missing or empty
    | InvalidDemoPath(joined: string)    // demo input is not one existing file
    | DictionaryFailed(stage: Stage)     // `load_dictionary` raised
    | TranslateFailed(path: string)      // `translate_path` raised in demo mode

  /** What the dispatcher does, in order. */
  datatype Event =
    | Construct(worker: Worker)
    | LoadDict(stage: Stage)
    | Translate(path: string, dest: string)
    | RewriteText(index: nat, text: string)
    | RewriteTranslation(index: nat, translation: string)
    | Serve(host: string, port: int)
    | Listen(worker: Worker)
    | Raise(failure: Failure)

  /** The collaborators. `loadDictionary` and `translatePath` answer `None`
      where the real call raises. */
  datatype Env = Env(
    basePath: string,
    isFile: string -> bool,
    naturalSort: seq<string> -> seq<string>,
    loadDictionary: Option<string> -> Option<Dictionary>,
    applyDictionary: (string, Dictionary) -> string,
    translatePath: (string, string) -> Option<seq<LineData>>)

  /** The parsed command line, as the dispatcher reads it. `input` is `None`
      when `-i` was not given. */
  datatype Arguments = Arguments(
    mode: string,
    input: Option<seq<string>>,
    dest: string,
    preDict: Option<string>,
    postDict: Option<string>,
    host: string,
    port: int)

  const DemoResult: string := "result/final.png"

  /** Python's truth test on `args.input`: present and non-empty. */
  predicate HasInput(input: Option<seq<string>>)
  {
    input.Some? && input.value != []
  }

  /** `os.path.join(base, tail)` on POSIX for a relative `tail`. */
  function PathJoin(base: string, tail: string): (r: string)
    ensures base == [] ==> r == tail
    ensures base != [] ==> |r| >= |base| + |tail| && r[..|base|] == base && r[|r| - |tail|..] == tail
    ensures base != [] && base[|base| - 1] == '/' ==> |r| == |base| + |tail|
    ensures base != [] && base[|base| - 1] != '/' ==> |r| == |base| + 1 + |tail| && r[|base|] == '/'
  {
    if base == [] then tail
    else if base[|base| - 1] == '/' then base + tail
    else base + "/" + tail
  }

  /** The fixed destination of a demo run. */
  function DemoDest(basePath: string): string
  {
    PathJoin(basePath, DemoResult)
  }

  /** `" ".join(words)`. */
  function JoinWords(words: seq<string>): string
  {
    if words == [] then ""
    else if |words| == 1 then words[0]
    else JoinWords(words[..|words| - 1]) + " " + words[|words| - 1]
  }

  /** The worker a service mode constructs and listens on. */
  function ListeningWorker(mode: string): Option<Worker>
  {
    if mode == "web_client" then Some(MangaTranslatorWeb)
    else if mode == "ws" then Some(MangaTranslatorWS)
    else if mode == "api" then Some(MangaTranslatorAPI)
    else if mode == "shared" then Some(MangaShare)
    else None
  }

  /** Rewriting every line's text through `dict`, first line first. */
  function TextEvents(lines: seq<LineData>, dict: Dictionary, apply: (string, Dictionary) -> string): seq<Event>
  {
    seq(|lines|, k requires 0 <= k < |lines| => RewriteText(k, apply(lines[k].text, dict)))
  }

  /** Rewriting every line's translation through `dict`, first line first. */
  function TranslationEvents(lines: seq<LineData>, dict: Dictionary, apply: (string, Dictionary) -> string): seq<Event>
  {
    seq(|lines|, k requires 0 <= k < |lines| => RewriteTranslation(k, apply(lines[k].translation, dict)))
  }

  /** One input path: translate it, and when that succeeds rewrite all texts,
      then all translations. */
  function ItemTrace(path: string, dest: string, pre: Dictionary, post: Dictionary, env: Env): seq<Event>
  {
    [Translate(path, dest)] +
    match env.translatePath(path, dest)
    case None => []
    case Some(lines) => TextEvents(lines, pre, env.applyDictionary) + TranslationEvents(lines, post, env.applyDictionary)
  }

  /** The batch loop over `paths`; a failing item contributes only its
      translate call. */
  function BatchRun(paths: seq<string>, dest: string, pre: Dictionary, post: Dictionary, env: Env): seq<Event>
    decreases |paths|
  {
    if paths == [] then []
    else BatchRun(paths[..|paths| - 1], dest, pre, post, env) + ItemTrace(paths[|paths| - 1], dest, pre, post, env)
  }

  /** A demo run once the dictionaries are loaded. */
  function DemoRun(input: seq<string>, pre: Dictionary, post: Dictionary, env: Env): seq<Event>
  {
    if |input| != 1 || !env.isFile(input[0]) then [Raise(InvalidDemoPath(JoinWords(input)))]
    else
      var dest := DemoDest(env.basePath);
      ItemTrace(input[0], dest, pre, post, env)
      + (if env.translatePath(input[0], dest).None? then [Raise(TranslateFailed(input[0]))] else [])
  }

  /** Demo or batch after the translator is built: load both dictionaries,
      then run. */
  function LoadAndRun(args: Arguments, input: seq<string>, env: Env): seq<Event>
  {
    match env.loadDictionary(args.preDict)
    case None => [LoadDict(Pre), Raise(DictionaryFailed(Pre))]
    case Some(pre) =>
      [LoadDict(Pre)] +
      match env.loadDictionary(args.postDict)
      case None => [LoadDict(Post), Raise(DictionaryFailed(Post))]
      case Some(post) =>
        [LoadDict(Post)] + ModeRun(args, input, pre, post, env)
  }

  /** The demo or batch branch, once both dictionaries are loaded. */
  function ModeRun(args: Arguments, input: seq<string>, pre: Dictionary, post: Dictionary, env: Env): seq<Event>
  {
    if args.mode == "demo" then DemoRun(input, pre, post, env)
    else BatchRun(env.naturalSort(input), args.dest, pre, post, env)
  }

  /** Everything `dispatch` does for `args`. */
  function DispatchTrace(args: Arguments, env: Env): seq<Event>
  {
    if args.mode == "demo" || args.mode == "batch" then
      if !HasInput(args.input) then [Raise(NoInput)]
      else [Construct(MangaTranslator)] + LoadAndRun(args, args.input.value, env)
    else if args.mode == "web" then [Serve(args.host, args.port)]
    else match ListeningWorker(args.mode)
      case Some(w) => [Construct(w), Listen(w)]
      case None => []
  }

  /** A demo run that gets past validation, the point at which
      `args.overwrite` is set. */
  predicate DemoProceeds(args: Arguments, env: Env)
  {
    args.mode == "demo" && HasInput(args.input)
    && env.loadDictionary(args.preDict).Some? && env.loadDictionary(args.postDict).Some?
    && |args.input.value| == 1 && env.isFile(args.input.value[0])
  }

  /** The `translate_path` calls in a trace, as (path, destination) pairs. */
  function TranslateCalls(trace: seq<Event>): seq<(string, string)>
  {
    if trace == [] then []
    else
      TranslateCalls(trace[..|trace| - 1])
      + (if trace[|trace| - 1].Translate? then [(trace[|trace| - 1].path, trace[|trace| - 1].dest)] else [])
  }

  lemma {:induction false} TranslateCallsAppend(a: seq<Event>, b: seq<Event>)
    ensures TranslateCalls(a + b) == TranslateCalls(a) + TranslateCalls(b)
    decreases |b|
  {
    if b == [] {
      assert a + b == a;
    } else {
      TranslateCallsAppend(a, b[..|b| - 1]);
      assert (a + b)[..|a + b| - 1] == a + b[..|b| - 1];
    }
  }

  lemma {:induction false} NoTranslateCalls(t: seq<Event>)
    requires forall i :: 0 <= i < |t| ==> !t[i].Translate?
    ensures TranslateCalls(t) == []
    decreases |t|
  {
    if t != [] {
      NoTranslateCalls(t[..|t| - 1]);
    }
  }

  /** Each item makes exactly one `translate_path` call, on its own path and
      the given destination. */
  lemma ItemTranslatesOnce(path: string, dest: string, pre: Dictionary, post: Dictionary, env: Env)
    ensures TranslateCalls(ItemTrace(path, dest, pre, post, env)) == [(path, dest)]
  {
    var t := ItemTrace(path, dest, pre, post, env);
    var rest := t[1..];
    assert t == [Translate(path, dest)] + rest;
    forall i | 0 <= i < |rest| ensures !rest[i].Translate? {
    }
    NoTranslateCalls(rest);
    TranslateCallsAppend([Translate(path, dest)], rest);
    assert TranslateCalls([Translate(path, dest)]) == TranslateCalls([]) + [(path, dest)];
  }

  /** A successful item rewrites text `k` into `apply(text, pre)` at position
      `1 + k`, once for each line in line order, and only after all of them
      translation `k` into `apply(translation, post)`. */
  lemma ItemRewritesInOrder(path: string, dest: string, pre: Dictionary, post: Dictionary, env: Env)
    requires env.translatePath(path, dest).Some?
    ensures var lines := env.translatePath(path, dest).value;
      var t := ItemTrace(path, dest, pre, post, env);
      |t| == 1 + 2 * |lines|
      && t[0] == Translate(path, dest)
      && (forall k :: 0 <= k < |lines| ==> t[1 + k] == RewriteText(k, env.applyDictionary(lines[k].text, pre)))
      && (forall k :: 0 <= k < |lines| ==>
            t[1 + |lines| + k] == RewriteTranslation(k, env.applyDictionary(lines[k].translation, post)))
  {
  }

  /** The batch loop over `a + b` is the loop over `a` followed by the loop
      over `b`: what happens to one path never depends on how the paths
      before it fared. */
  lemma {:induction false} BatchRunSplit(a: seq<string>, b: seq<string>, dest: string, pre: Dictionary,
                                         post: Dictionary, env: Env)
    ensures BatchRun(a + b, dest, pre, post, env) == BatchRun(a, dest, pre, post, env) + BatchRun(b, dest, pre, post, env)
    decreases |b|
  {
    if b == [] {
      assert a + b == a;
    } else {
      var b' := b[..|b| - 1];
      BatchRunSplit(a, b', dest, pre, post, env);
      assert (a + b)[..|a + b| - 1] == a + b';
      assert (a + b)[|a + b| - 1] == b[|b| - 1];
    }
  }

  /** The batch loop only translates and rewrites: it never raises, builds
      or loads anything. */
  lemma {:induction false} BatchRunOnlyItems(paths: seq<string>, dest: string, pre: Dictionary,
                                             post: Dictionary, env: Env)
    ensures forall i :: 0 <= i < |BatchRun(paths, dest, pre, post, env)| ==>
      var e := BatchRun(paths, dest, pre, post, env)[i];
      e.Translate? || e.RewriteText? || e.RewriteTranslation?
    decreases |paths|
  {
    if paths != [] {
      BatchRunOnlyItems(paths[..|paths| - 1], dest, pre, post, env);
    }
  }

  /** The batch loop calls `translate_path` once per path, in the order
      given, always with the same destination. */
  lemma {:induction false} BatchTranslatesInOrder(paths: seq<string>, dest: string, pre: Dictionary,
                                                  post: Dictionary, env: Env)
    ensures |TranslateCalls(BatchRun(paths, dest, pre, post, env))| == |paths|
    ensures forall i :: 0 <= i < |paths| ==> TranslateCalls(BatchRun(paths, dest, pre, post, env))[i] == (paths[i], dest)
    decreases |paths|
  {
    if paths != [] {
      var init, last := paths[..|paths| - 1], paths[|paths| - 1];
      BatchTranslatesInOrder(init, dest, pre, post, env);
      var earlier := TranslateCalls(BatchRun(init, dest, pre, post, env));
      TranslateCallsAppend(BatchRun(init, dest, pre, post, env), ItemTrace(last, dest, pre, post, env));
      ItemTranslatesOnce(last, dest, pre, post, env);
      var calls := TranslateCalls(BatchRun(paths, dest, pre, post, env));
      assert calls == earlier + [(last, dest)];
      forall i | 0 <= i < |paths| ensures calls[i] == (paths[i], dest) {
        if i < |init| {
          assert calls[i] == earlier[i];
          assert paths[i] == init[i];
        }
      }
    }
  }

  /** In demo and batch mode a missing or empty input raises before anything
      is built or loaded. */
  lemma NoInputRaisesFirst(args: Arguments, env: Env)
    requires args.mode == "demo" || args.mode == "batch"
    requires !HasInput(args.input)
    ensures DispatchTrace(args, env) == [Raise(NoInput)]
  {
  }

  /** The events of one item are a translate call and rewrites. */
  lemma ItemRewritesInOrderShape(path: string, dest: string, pre: Dictionary, post: Dictionary, env: Env)
    ensures forall i :: 0 <= i < |ItemTrace(path, dest, pre, post, env)| ==>
      var e := ItemTrace(path, dest, pre, post, env)[i];
      e.Translate? || e.RewriteText? || e.RewriteTranslation?
  {
  }

  /** Once the dictionaries are loaded nothing more is built or loaded, and
      only the last event can be an exception; a batch run never raises. */
  lemma ModeRunEvents(args: Arguments, input: seq<string>, pre: Dictionary, post: Dictionary, env: Env)
    ensures var run := ModeRun(args, input, pre, post, env);
      forall i :: 0 <= i < |run| ==> !run[i].Construct? && !run[i].LoadDict? && (run[i].Raise? ==> i == |run| - 1)
    ensures args.mode != "demo" ==> var run := ModeRun(args, input, pre, post, env);
      forall i :: 0 <= i < |run| ==> !run[i].Raise?
  {
    if args.mode == "demo" {
      if |input| == 1 && env.isFile(input[0]) {
        var dest := DemoDest(env.basePath);
        var item := ItemTrace(input[0], dest, pre, post, env);
        ItemRewritesInOrderShape(input[0], dest, pre, post, env);
        var tail: seq<Event> := if env.translatePath(input[0], dest).None? then [Raise(TranslateFailed(input[0]))] else [];
        var run := item + tail;
        assert ModeRun(args, input, pre, post, env) == run;
        forall i | 0 <= i < |run| ensures !run[i].Construct? && !run[i].LoadDict? && (run[i].Raise? ==> i == |run| - 1) {
          if i < |item| {
            assert run[i] == item[i];
          }
        }
      }
    } else {
      BatchRunOnlyItems(env.naturalSort(input), args.dest, pre, post, env);
    }
  }

  /** The run of a demo or batch invocation with input, by what the
      dictionary loads return. */
  lemma LocalTraceShape(args: Arguments, env: Env)
    requires (args.mode == "demo" || args.mode == "batch") && HasInput(args.input)
    ensures env.loadDictionary(args.preDict).None? ==>
      DispatchTrace(args, env) == [Construct(MangaTranslator), LoadDict(Pre), Raise(DictionaryFailed(Pre))]
    ensures env.loadDictionary(args.preDict).Some? && env.loadDictionary(args.postDict).None? ==>
      DispatchTrace(args, env) == [Construct(MangaTranslator), LoadDict(Pre), LoadDict(Post), Raise(DictionaryFailed(Post))]
    ensures env.loadDictionary(args.preDict).Some? && env.loadDictionary(args.postDict).Some? ==>
      DispatchTrace(args, env) == [Construct(MangaTranslator), LoadDict(Pre), LoadDict(Post)]
        + ModeRun(args, args.input.value, env.loadDictionary(args.preDict).value, env.loadDictionary(args.postDict).value, env)
  {
  }

  /** In demo and batch mode with input, the translator is built first and
      once, the pre- and post-translation dictionaries are loaded next and
      once each (the post one only if the pre one loaded), and no
      `translate_path` call comes before them. */
  lemma SetupComesFirst(args: Arguments, env: Env)
    requires args.mode == "demo" || args.mode == "batch"
    requires HasInput(args.input)
    ensures var t := DispatchTrace(args, env);
      |t| >= 3 && t[0] == Construct(MangaTranslator) && t[1] == LoadDict(Pre)
      && (t[2] == LoadDict(Post) <==> env.loadDictionary(args.preDict).Some?)
      && (forall i :: 0 <= i < |t| && t[i].Construct? ==> i == 0)
      && (forall i :: 0 <= i < |t| && t[i].LoadDict? ==> i == 1 || i == 2)
      && (forall i :: 0 <= i < |t| && t[i].Translate? ==> i >= 3)
  {
    LocalTraceShape(args, env);
    var t := DispatchTrace(args, env);
    if env.loadDictionary(args.preDict).Some? && env.loadDictionary(args.postDict).Some? {
      var pre := env.loadDictionary(args.preDict).value;
      var post := env.loadDictionary(args.postDict).value;
      var run := ModeRun(args, args.input.value, pre, post, env);
      ModeRunEvents(args, args.input.value, pre, post, env);
      forall i | 3 <= i < |t| ensures !t[i].Construct? && !t[i].LoadDict? {
        assert t[i] == run[i - 3];
      }
    }
  }

  /** A demo run whose input is not exactly one existing file raises once
      the translator and both dictionaries exist, and translates nothing. */
  lemma DemoRejectsInvalidInput(args: Arguments, env: Env)
    requires args.mode == "demo" && HasInput(args.input)
    requires env.loadDictionary(args.preDict).Some? && env.loadDictionary(args.postDict).Some?
    requires |args.input.value| != 1 || !env.isFile(args.input.value[0])
    ensures DispatchTrace(args, env)
      == [Construct(MangaTranslator), LoadDict(Pre), LoadDict(Post), Raise(InvalidDemoPath(JoinWords(args.input.value)))]
    ensures TranslateCalls(DispatchTrace(args, env)) == []
  {
    NoTranslateCalls(DispatchTrace(args, env));
  }

  /** A demo run that passes validation translates its one input exactly
      once, to the fixed destination under the base path, whatever
      destination the arguments name. */
  lemma DemoTranslatesOnceToFixedDest(args: Arguments, env: Env, otherDest: string)
    requires DemoProceeds(args, env)
    ensures TranslateCalls(DispatchTrace(args, env)) == [(args.input.value[0], DemoDest(env.basePath))]
    ensures DispatchTrace(args.(dest := otherDest), env) == DispatchTrace(args, env)
  {
    var input := args.input.value;
    var pre := env.loadDictionary(args.preDict).value;
    var post := env.loadDictionary(args.postDict).value;
    var dest := DemoDest(env.basePath);
    var item := ItemTrace(input[0], dest, pre, post, env);
    var tail: seq<Event> := if env.translatePath(input[0], dest).None? then [Raise(TranslateFailed(input[0]))] else [];
    var setup := [Construct(MangaTranslator), LoadDict(Pre), LoadDict(Post)];
    assert DispatchTrace(args, env) == setup + item + tail;
    TranslateCallsAppend(setup + item, tail);
    TranslateCallsAppend(setup, item);
    NoTranslateCalls(setup);
    NoTranslateCalls(tail);
    ItemTranslatesOnce(input[0], dest, pre, post, env);
  }

  /** A batch run calls `translate_path` once for each path of
      `natural_sort(input)`, in that order, always with `args.dest`. */
  lemma BatchTranslatesSortedInput(args: Arguments, env: Env)
    requires args.mode == "batch" && HasInput(args.input)
    requires env.loadDictionary(args.preDict).Some? && env.loadDictionary(args.postDict).Some?
    ensures var sorted := env.naturalSort(args.input.value);
      |TranslateCalls(DispatchTrace(args, env))| == |sorted|
      && forall i :: 0 <= i < |sorted| ==> TranslateCalls(DispatchTrace(args, env))[i] == (sorted[i], args.dest)
  {
    var pre := env.loadDictionary(args.preDict).value;
    var post := env.loadDictionary(args.postDict).value;
    var setup := [Construct(MangaTranslator), LoadDict(Pre), LoadDict(Post)];
    var run := ModeRun(args, args.input.value, pre, post, env);
    LocalTraceShape(args, env);
    assert run == BatchRun(env.naturalSort(args.input.value), args.dest, pre, post, env);
    TranslateCallsAppend(setup, run);
    NoTranslateCalls(setup);
    BatchTranslatesInOrder(env.naturalSort(args.input.value), args.dest, pre, post, env);
    assert TranslateCalls(DispatchTrace(args, env)) == TranslateCalls(run);
  }

  /** Only the last event of a run can be an exception: a batch run with
      both dictionaries loaded never raises, whichever items fail. */
  lemma RaiseOnlyAtEnd(args: Arguments, env: Env)
    ensures var t := DispatchTrace(args, env);
      forall i :: 0 <= i < |t| && t[i].Raise? ==> i == |t| - 1
    ensures args.mode == "batch" && HasInput(args.input)
      && env.loadDictionary(args.preDict).Some? && env.loadDictionary(args.postDict).Some?
      ==> forall i :: 0 <= i < |DispatchTrace(args, env)| ==> !DispatchTrace(args, env)[i].Raise?
  {
    var t := DispatchTrace(args, env);
    if (args.mode == "demo" || args.mode == "batch") && HasInput(args.input) {
      LocalTraceShape(args, env);
      if env.loadDictionary(args.preDict).Some? && env.loadDictionary(args.postDict).Some? {
        var pre := env.loadDictionary(args.preDict).value;
        var post := env.loadDictionary(args.postDict).value;
        var run := ModeRun(args, args.input.value, pre, post, env);
        ModeRunEvents(args, args.input.value, pre, post, env);
        forall i | 3 <= i < |t| ensures t[i] == run[i - 3] {
        }
      }
    }
  }

  /** Service modes: `web` serves on the given host and port; `web_client`,
      `ws`, `api` and `shared` build one worker of their own class and
      listen once; any other mode does nothing. */
  lemma ServiceModes(args: Arguments, env: Env)
    requires args.mode != "demo" && args.mode != "batch"
    ensures args.mode == "web" ==> DispatchTrace(args, env) == [Serve(args.host, args.port)]
    ensures args.mode == "web_client" ==> DispatchTrace(args, env) == [Construct(MangaTranslatorWeb), Listen(MangaTranslatorWeb)]
    ensures args.mode == "ws" ==> DispatchTrace(args, env) == [Construct(MangaTranslatorWS), Listen(MangaTranslatorWS)]
    ensures args.mode == "api" ==> DispatchTrace(args, env) == [Construct(MangaTranslatorAPI), Listen(MangaTranslatorAPI)]
    ensures args.mode == "shared" ==> DispatchTrace(args, env) == [Construct(MangaShare), Listen(MangaShare)]
    ensures args.mode !in {"web", "web_client", "ws", "api", "shared"} ==> DispatchTrace(args, env) == []
  {
  }

  /** A detected text line, rewritten in place. */
  class TextLine {
    var text: string
    var translation: string

    constructor (text: string, translation: string)
      ensures this.text == text && this.translation == translation
    {
      this.text := text;
      this.translation := translation;
    }
  }

  /** No text line appears twice. */
  predicate Distinct(lines: seq<TextLine>)
  {
    forall i, j :: 0 <= i < j < |lines| ==> lines[i] != lines[j]
  }

  /** The text lines hold exactly `data`, line for line. */
  ghost predicate Holds(lines: seq<TextLine>, data: seq<LineData>)
    reads set l | l in lines
  {
    |lines| == |data|
    && forall k :: 0 <= k < |lines| ==> lines[k].text == data[k].text && lines[k].translation == data[k].translation
  }

  /** The translator of demo and batch runs: `textlines` holds the lines of
      the last translated image. */
  class Translator {
    var textlines: seq<TextLine>

    constructor ()
      ensures textlines == []
    {
      textlines := [];
    }

    /** `translate_path`: on success, fresh text lines holding its result. */
    method TranslatePath(path: string, dest: string, translatePath: (string, string) -> Option<seq<LineData>>)
      returns (ok: bool)
      modifies this`textlines
      ensures ok == translatePath(path, dest).Some?
      ensures ok ==> Holds(textlines, translatePath(path, dest).value) && Distinct(textlines)
      ensures ok ==> forall l :: l in textlines ==> fresh(l)
      ensures !ok ==> textlines == old(textlines)
    {
      var result := translatePath(path, dest);
      if result.None? {
        return false;
      }
      var data := result.value;
      var lines: seq<TextLine> := [];
      while |lines| < |data|
        invariant |lines| <= |data|
        invariant Holds(lines, data[..|lines|]) && Distinct(lines)
        invariant forall l :: l in lines ==> fresh(l)
      {
        var line := new TextLine(data[|lines|].text, data[|lines|].translation);
        lines := lines + [line];
      }
      textlines := lines;
      assert data[..|lines|] == data;
      ok := true;
    }

    /** The pre-translation pass: every text goes through `dict`, first
        line first; translations are untouched. */
    method RewriteTexts(dict: Dictionary, apply: (string, Dictionary) -> string, ghost data: seq<LineData>)
      returns (events: seq<Event>)
      requires Holds(textlines, data) && Distinct(textlines)
      modifies set l | l in textlines
      ensures Holds(textlines, seq(|data|, k requires 0 <= k < |data| => LineData(apply(data[k].text, dict), data[k].translation)))
      ensures events == TextEvents(data, dict, apply)
    {
      events := [];
      var i := 0;
      while i < |textlines|
        invariant 0 <= i <= |textlines|
        invariant forall k :: 0 <= k < i ==> textlines[k].text == apply(data[k].text, dict)
        invariant forall k :: i <= k < |textlines| ==> textlines[k].text == data[k].text
        invariant forall k :: 0 <= k < |textlines| ==> textlines[k].translation == data[k].translation
        invariant events == TextEvents(data[..i], dict, apply)
      {
        var line := textlines[i];
        line.text := apply(line.text, dict);
        events := events + [RewriteText(i, line.text)];
        i := i + 1;
      }
      assert data[..i] == data;
    }

    /** The post-translation pass: every translation goes through `dict`,
        first line first; texts are untouched. */
    method RewriteTranslations(dict: Dictionary, apply: (string, Dictionary) -> string, ghost data: seq<LineData>)
      returns (events: seq<Event>)
      requires Holds(textlines, data) && Distinct(textlines)
      modifies set l | l in textlines
      ensures Holds(textlines, seq(|data|, k requires 0 <= k < |data| => LineData(data[k].text, apply(data[k].translation, dict))))
      ensures events == TranslationEvents(data, dict, apply)
    {
      events := [];
      var i := 0;
      while i < |textlines|
        invariant 0 <= i <= |textlines|
        invariant forall k :: 0 <= k < i ==> textlines[k].translation == apply(data[k].translation, dict)
        invariant forall k :: i <= k < |textlines| ==> textlines[k].translation == data[k].translation
        invariant forall k :: 0 <= k < |textlines| ==> textlines[k].text == data[k].text
        invariant events == TranslationEvents(data[..i], dict, apply)
      {
        var line := textlines[i];
        line.translation := apply(line.translation, dict);
        events := events + [RewriteTranslation(i, line.translation)];
        i := i + 1;
      }
      assert data[..i] == data;
    }

    /** One input path: translate it, then on success run the pre pass and
        the post pass over its text lines. */
    method Process(path: string, dest: string, pre: Dictionary, post: Dictionary, env: Env)
      returns (ok: bool, events: seq<Event>)
      modifies this`textlines
      ensures ok == env.translatePath(path, dest).Some?
      ensures events == ItemTrace(path, dest, pre, post, env)
      ensures ok ==> Holds(textlines, seq(|env.translatePath(path, dest).value|, k
        requires 0 <= k < |env.translatePath(path, dest).value| =>
          LineData(env.applyDictionary(env.translatePath(path, dest).value[k].text, pre),
                   env.applyDictionary(env.translatePath(path, dest).value[k].translation, post))))
    {
      ok := TranslatePath(path, dest, env.translatePath);
      events := [Translate(path, dest)];
      if ok {
        ghost var data := env.translatePath(path, dest).value;
        var texts := RewriteTexts(pre, env.applyDictionary, data);
        ghost var rewritten := seq(|data|, k requires 0 <= k < |data| => LineData(env.applyDictionary(data[k].text, pre), data[k].translation));
        var translations := RewriteTranslations(post, env.applyDictionary, rewritten);
        events := events + texts + translations;
        assert TranslationEvents(rewritten, post, env.applyDictionary) == TranslationEvents(data, post, env.applyDictionary);
      }
    }
  }

  /** The parsed arguments; the dispatcher changes only `overwrite`. */
  class Args {
    const mode: string
    const input: Option<seq<string>>
    const dest: string
    const preDict: Option<string>
    const postDict: Option<string>
    const host: string
    const port: int
    var overwrite: bool

    constructor (arguments: Arguments, overwrite: bool)
      ensures Snapshot() == arguments && this.overwrite == overwrite
    {
      mode := arguments.mode;
      input := arguments.input;
      dest := arguments.dest;
      preDict := arguments.preDict;
      postDict := arguments.postDict;
      host := arguments.host;
      port := arguments.port;
      this.overwrite := overwrite;
    }

    function Snapshot(): Arguments
    {
      Arguments(mode, input, dest, preDict, postDict, host, port)
    }
  }

  /** The demo branch once the dictionaries are loaded: validate the single
      input, set `args.overwrite`, translate to the fixed destination, and
      let a failing translation propagate. */
  method RunDemo(args: Args, translator: Translator, input: seq<string>, pre: Dictionary, post: Dictionary, env: Env)
    returns (events: seq<Event>)
    modifies args`overwrite, translator`textlines
    ensures events == DemoRun(input, pre, post, env)
    ensures args.overwrite == ((|input| == 1 && env.isFile(input[0])) || old(args.overwrite))
  {
    if |input| != 1 || !env.isFile(input[0]) {
      return [Raise(InvalidDemoPath(JoinWords(input)))];
    }
    var dest := PathJoin(env.basePath, DemoResult);
    args.overwrite := true;
    var ok;
    ok, events := translator.Process(input[0], dest, pre, post, env);
    if !ok {
      events := events + [Raise(TranslateFailed(input[0]))];
    }
  }

  /** The batch loop: every path in turn, a failing one swallowed. */
  method RunBatch(translator: Translator, paths: seq<string>, dest: string, pre: Dictionary, post: Dictionary, env: Env)
    returns (events: seq<Event>)
    modifies translator`textlines
    ensures events == BatchRun(paths, dest, pre, post, env)
  {
    events := [];
    var i := 0;
    while i < |paths|
      invariant 0 <= i <= |paths|
      invariant events == BatchRun(paths[..i], dest, pre, post, env)
    {
      var _, item := translator.Process(paths[i], dest, pre, post, env);
      events := events + item;
      assert paths[..i + 1][..i] == paths[..i];
      i := i + 1;
    }
    assert paths[..i] == paths;
  }

  /** Demo and batch: build the translator, load both dictionaries (either
      may raise), then run the mode's branch. */
  method RunLocal(args: Args, env: Env) returns (trace: seq<Event>)
    requires (args.mode == "demo" || args.mode == "batch") && HasInput(args.input)
    modifies args`overwrite
    ensures trace == [Construct(MangaTranslator)] + LoadAndRun(args.Snapshot(), args.input.value, env)
    ensures args.overwrite == (DemoProceeds(args.Snapshot(), env) || old(args.overwrite))
  {
    var input := args.input.value;
    var translator := new Translator();
    trace := [Construct(MangaTranslator)];
    var preDict := env.loadDictionary(args.preDict);
    trace := trace + [LoadDict(Pre)];
    if preDict.None? {
      return trace + [Raise(DictionaryFailed(Pre))];
    }
    var postDict := env.loadDictionary(args.postDict);
    trace := trace + [LoadDict(Post)];
    if postDict.None? {
      return trace + [Raise(DictionaryFailed(Post))];
    }
    var pre, post := preDict.value, postDict.value;
    var events;
    if args.mode == "demo" {
      events := RunDemo(args, translator, input, pre, post, env);
    } else {
      events := RunBatch(translator, env.naturalSort(input), args.dest, pre, post, env);
    }
    trace := trace + events;
  }

  /** `dispatch`: run the strategy the mode selects and return what it did.
      Only a demo run that passes validation sets `args.overwrite`. */
  method Dispatch(args: Args, env: Env) returns (trace: seq<Event>)
    modifies args`overwrite
    ensures trace == DispatchTrace(args.Snapshot(), env)
    ensures args.overwrite == (DemoProceeds(args.Snapshot(), env) || old(args.overwrite))
  {
    if args.mode == "demo" || args.mode == "batch" {
      if !HasInput(args.input) {
        return [Raise(NoInput)];
      }
      trace := RunLocal(args, env);
    } else if args.mode == "web" {
      trace := [Serve(args.host, args.port)];
    } else {
      var worker := ListeningWorker(args.mode);
      if worker.Some? {
        trace := [Construct(worker.value), Listen(worker.value)];
      } else {
        trace := [];
      }
    }
  }
}
