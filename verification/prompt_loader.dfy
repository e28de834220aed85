/** `PromptLoader`: prompt templates read from `<prompts_dir>/<name>.txt`, memoised per name,
    with a fixed fallback text when the file does not exist. The file system is a parameter of
    every call: a function from path to what opening and reading that path gives. */
module PromptLoader {
  import opened Wrappers
  import opened Errors
  import opened Text

  /** The outcome of `open(path, encoding='utf-8').read()`: the decoded text (with newlines
      already translated), FileNotFoundError, or any other error, which propagates. */
  datatype FileRead = Contents(text: string) | NotFound | Unreadable(error: Error)

  /** The loader: its directory and the cache from prompt name to prompt text. */
  datatype Loader = Loader(promptsDir: string, cache: map<string, string>)

  /** What one `load_prompt` call returns, with the loader as the call leaves it. */
  datatype Loaded = Loaded(result: Result<string, Error>, loader: Loader)

  const DefaultDir: string := "prompts"

  /** `PromptLoader(prompts_dir)`: nothing cached yet. */
  function NewLoader(promptsDir: string): (l: Loader)
    ensures l.promptsDir == promptsDir && |l.cache| == 0
  {
    Loader(promptsDir, map[])
  }

  /** `os.path.join(dir, name)` on POSIX: an absolute second part replaces the first; a slash
      is inserted only when the first part is non-empty and does not already end in one. */
  function PathJoin(dir: string, name: string): (r: string)
    ensures |name| <= |r| && r[|r| - |name|..] == name
    ensures |name| > 0 && name[0] == '/' ==> r == name
    ensures (|name| == 0 || name[0] != '/') ==> r[..|r| - |name|] == dir || r[..|r| - |name|] == dir + "/"
    ensures (|name| == 0 || name[0] != '/') && |dir| > 0 && dir[|dir| - 1] != '/' ==> r == dir + "/" + name
  {
    if |name| > 0 && name[0] == '/' then name
    else if |dir| == 0 || dir[|dir| - 1] == '/' then
      assert (dir + name)[..|dir|] == dir;
      dir + name
    else
      assert (dir + "/" + name)[..|dir| + 1] == dir + "/";
      dir + "/" + name
  }

  /** The file a name is read from. */
  function PromptPath(l: Loader, name: string): string {
    PathJoin(l.promptsDir, name + ".txt")
  }

  /** `_get_fallback_prompt`'s table. */
  const Fallbacks: map<string, string> := map[
    "news_scanner" := "Analyze these articles for ING Bank relevance: {rss_articles}",
    "intent_extractor" := "Extract search intents from: {news_articles}",
    "content_evaluator" := "Evaluate content quality: {content}",
    "content_optimizer" := "Optimize content for: {target_keywords}",
    "brand_enforcer" := "Check brand compliance: {content}"]

  /** The default is a plain string literal, so `{prompt_name}` stays in it as written. */
  const DefaultFallback: string := "Default prompt for {prompt_name}"

  /** `_get_fallback_prompt(name)`: `fallbacks.get(name, default)`. */
  function FallbackPrompt(name: string): (r: string)
    ensures name in Fallbacks ==> r == Fallbacks[name]
    ensures name !in Fallbacks ==> r == DefaultFallback
  {
    if name in Fallbacks then Fallbacks[name] else DefaultFallback
  }

  /** `load_prompt(name)` against the file system `fs`. A hit answers from the cache without
      consulting `fs`; a miss reads the file, and only a successful read is cached, stripped. */
  function LoadPrompt(l: Loader, name: string, fs: string -> FileRead): (r: Loaded)
    ensures r.loader.promptsDir == l.promptsDir
    ensures name in l.cache ==> r == Loaded(Success(l.cache[name]), l)
    ensures l.cache.Keys <= r.loader.cache.Keys <= l.cache.Keys + {name}
    ensures forall k :: k in l.cache ==> r.loader.cache[k] == l.cache[k]
    ensures name in r.loader.cache ==> r.result == Success(r.loader.cache[name])
    ensures name !in l.cache ==> (name in r.loader.cache <==> fs(PromptPath(l, name)).Contents?)
    ensures name !in l.cache && fs(PromptPath(l, name)).Contents? ==>
      r.result == Success(Strip(fs(PromptPath(l, name)).text))
    ensures name !in l.cache && fs(PromptPath(l, name)).NotFound? ==> r == Loaded(Success(FallbackPrompt(name)), l)
    ensures name !in l.cache && fs(PromptPath(l, name)).Unreadable? ==> r == Loaded(Failure(fs(PromptPath(l, name)).error), l)
  {
    if name in l.cache then Loaded(Success(l.cache[name]), l)
    else
      match fs(PromptPath(l, name))
      case Contents(text) =>
        var content := Strip(text);
        Loaded(Success(content), l.(cache := l.cache[name := content]))
      case NotFound => Loaded(Success(FallbackPrompt(name)), l)
      case Unreadable(e) => Loaded(Failure(e), l)
  }

  /** A prompt read from its file keeps its value for the loader's lifetime, whatever later
      happens to the file, and the next lookup of the same name reads nothing. */
  lemma ReadOnceKept(l: Loader, name: string, fs1: string -> FileRead, fs2: string -> FileRead)
    requires name !in l.cache && fs1(PromptPath(l, name)).Contents?
    ensures var first := LoadPrompt(l, name, fs1);
      && first.result == Success(Strip(fs1(PromptPath(l, name)).text))
      && LoadPrompt(first.loader, name, fs2) == Loaded(first.result, first.loader)
  {
  }

  /** The default directory gives `prompts/<name>.txt` for every relative name. */
  lemma DefaultPath(name: string)
    requires |name| == 0 || name[0] != '/'
    ensures PromptPath(NewLoader(DefaultDir), name) == "prompts/" + name + ".txt"
  {
    assert (name + ".txt")[0] == if |name| == 0 then '.' else name[0];
  }

  /** There are exactly five known names. */
  lemma FallbackTable()
    ensures Fallbacks.Keys == {"news_scanner", "intent_extractor", "content_evaluator", "content_optimizer", "brand_enforcer"}
  {
  }

  /** Every unknown name gets the same text: the name is not substituted in. */
  lemma FallbackIgnoresName(a: string, b: string)
    requires a !in Fallbacks && b !in Fallbacks
    ensures FallbackPrompt(a) == FallbackPrompt(b) == DefaultFallback
  {
  }

  // ---------------------------------------------------------------------------------------
  // Sessions: one loader across many calls
  // ---------------------------------------------------------------------------------------

  /** One `load_prompt` call: the name, and the file system as it stands at that moment. */
  datatype Call = Call(name: string, fs: string -> FileRead)

  /** Runs the calls in order on one loader: each call's answer, and the final loader. */
  function Session(l: Loader, calls: seq<Call>): (r: (seq<Result<string, Error>>, Loader))
    ensures |r.0| == |calls|
    ensures r.1.promptsDir == l.promptsDir
  {
    if |calls| == 0 then ([], l)
    else
      var before := Session(l, calls[..|calls| - 1]);
      var c := calls[|calls| - 1];
      var last := LoadPrompt(before.1, c.name, c.fs);
      (before.0 + [last.result], last.loader)
  }

  /** Over a session, cache entries are only ever added, never overwritten or removed. */
  lemma {:induction false} SessionOnlyAdds(l: Loader, calls: seq<Call>)
    ensures var l' := Session(l, calls).1;
      && l.cache.Keys <= l'.cache.Keys
      && forall k :: k in l.cache ==> l'.cache[k] == l.cache[k]
  {
    if |calls| > 0 {
      var before := Session(l, calls[..|calls| - 1]);
      var c := calls[|calls| - 1];
      SessionOnlyAdds(l, calls[..|calls| - 1]);
    }
  }

  /** Once a name is cached, every later call for it answers the cached value. */
  lemma {:induction false} CachedAnswersStable(l: Loader, calls: seq<Call>, name: string)
    requires name in l.cache
    ensures var r := Session(l, calls);
      forall i :: 0 <= i < |calls| && calls[i].name == name ==> r.0[i] == Success(l.cache[name])
  {
    if |calls| > 0 {
      var front := calls[..|calls| - 1];
      var before := Session(l, front);
      CachedAnswersStable(l, front, name);
      SessionOnlyAdds(l, front);
      var r := Session(l, calls);
      forall i | 0 <= i < |calls| && calls[i].name == name
        ensures r.0[i] == Success(l.cache[name])
      {
        if i < |front| {
          assert calls[i] == front[i];
          assert r.0[i] == before.0[i];
        }
      }
    }
  }
}
