/** The script route (`POST /api/generate`): after checking the title it asks
    Groq (only when its key is configured), then Gemini, and, only when the
    Gemini failure looks like a rate limit, three Hugging Face models in a
    fixed order. The first provider that yields a parsed script wins; every
    other outcome ends in one 429 error. Providers are oracles. */
module GenerateRoute {
  import opened Common

  /** A parsed script document, kept as the text it is re-serialised to. */
  datatype Script = Script(json: string)

  /** The prompt sent to every provider: the topic and the language named
      in it. */
  datatype Prompt = Prompt(topic: string, language: string)

  datatype Provider = Groq | Gemini | HuggingFace(model: string)

  /** One attempt at Groq or at a Hugging Face model: a parsed script, or any
      failure (a non-ok status, a thrown request, a body or content that does
      not parse); every failure is handled the same way. */
  datatype Outcome = Produced(script: Script) | Failed

  /** The Gemini attempt. A failure keeps what the handler inspects: the
      error's `message` and `status`, either of which may be missing. A
      response text that does not parse is a failure whose message is the
      parser's. */
  datatype GeminiOutcome =
    | GeminiScript(script: Script)
    | GeminiError(message: Option<string>, status: Option<int>)

  /** The request body after `req.json()`; `Unreadable` when that throws. */
  datatype GenerateRequest = Unreadable | Body(title: Option<string>, language: Option<string>)

  datatype GenerateError = TitleRequired | AllProvidersBusy

  /** `Crash` is the framework's answer to the exception `req.json()` throws
      outside any `try`. */
  datatype GenerateResponse =
    | Generated(script: Script)
    | JsonError(status: int, error: GenerateError)
    | Crash

  /** The Hugging Face models of the emergency chain, in the order tried. */
  const FallbackModels: seq<string> :=
    ["Qwen/Qwen2.5-72B-Instruct", "meta-llama/Llama-3.1-8B-Instruct", "mistralai/Mistral-7B-Instruct-v0.3"]

  /** The language named in the prompt: `language` defaults to `'ar'` when
      absent, and only `'ar'` selects Arabic. */
  function PromptLanguage(language: Option<string>): (name: string)
    ensures name == "Arabic" <==> (language.None? || language.value == "ar")
    ensures name == "Arabic" || name == "English"
  {
    var lang := if language.Some? then language.value else "ar";
    if lang == "ar" then "Arabic" else "English"
  }

  /** The condition under which the Hugging Face chain is entered. */
  predicate RateLimited(message: Option<string>, status: Option<int>)
  {
    (message.Some? && (Contains(message.value, "429") || Contains(message.value, "limit")))
    || status == Some(429)
  }

  /** The result of the Hugging Face chain over `models`: the models asked,
      in order, and the script of the first that produced one. */
  datatype ChainRun = ChainRun(tried: seq<string>, script: Option<Script>)

  /** The loop over the fallback models: each failure moves on to the next
      model; the first script ends the loop. */
  function RunChain(models: seq<string>, prompt: Prompt, hf: (string, Prompt) -> Outcome): ChainRun
    decreases |models|
  {
    if models == [] then ChainRun([], None)
    else
      match hf(models[0], prompt)
      case Produced(s) => ChainRun([models[0]], Some(s))
      case Failed =>
        var rest := RunChain(models[1..], prompt, hf);
        ChainRun([models[0]] + rest.tried, rest.script)
  }

  /** The models are asked strictly in order, each failure moves on, the
      first script wins, and the chain yields nothing only when every model
      failed. */
  lemma {:induction false} ChainInOrder(models: seq<string>, prompt: Prompt, hf: (string, Prompt) -> Outcome)
    ensures var r := RunChain(models, prompt, hf);
      && |r.tried| <= |models| && r.tried == models[..|r.tried|]
      && (forall k :: 0 <= k < |r.tried| - 1 ==> hf(r.tried[k], prompt).Failed?)
      && (r.script.Some? <==> exists k :: 0 <= k < |models| && hf(models[k], prompt).Produced?)
      && (r.script.Some? ==> r.tried != [] && hf(r.tried[|r.tried| - 1], prompt) == Produced(r.script.value))
      && (r.script.None? ==> r.tried == models)
    decreases |models|
  {
    if models != [] && hf(models[0], prompt).Failed? {
      var tail := models[1..];
      ChainInOrder(tail, prompt, hf);
      var rest := RunChain(tail, prompt, hf);
      var r := RunChain(models, prompt, hf);
      assert r == ChainRun([models[0]] + rest.tried, rest.script);
      assert models[..|r.tried|] == [models[0]] + tail[..|rest.tried|];
      forall k | 0 <= k < |r.tried| - 1
        ensures hf(r.tried[k], prompt).Failed?
      {
        if k > 0 {
          assert r.tried[k] == rest.tried[k - 1];
        }
      }
      if rest.script.None? {
        forall k | 0 <= k < |models|
          ensures !hf(models[k], prompt).Produced?
        {
          if k > 0 {
            assert models[k] == tail[k - 1];
          }
        }
      } else {
        var j :| 0 <= j < |tail| && hf(tail[j], prompt).Produced?;
        assert models[j + 1] == tail[j];
      }
    }
  }

  /** The providers contacted by a run of the chain. */
  function HfProviders(models: seq<string>): (ps: seq<Provider>)
    ensures |ps| == |models| && forall k :: 0 <= k < |ps| ==> ps[k] == HuggingFace(models[k])
  {
    if models == [] then [] else [HuggingFace(models[0])] + HfProviders(models[1..])
  }

  /** The Groq phase, taken only when `GROQ_API_KEY` is set. */
  function GroqPhase(groqKey: Option<string>): seq<Provider>
  {
    if Truthy(groqKey) then [Groq] else []
  }

  /** After failures at every model before `i`, the chain's result is the
      rest of the chain's result behind those models. */
  lemma {:induction false} ChainAfterFailures(models: seq<string>, prompt: Prompt, hf: (string, Prompt) -> Outcome, i: nat)
    requires i <= |models|
    requires forall k :: 0 <= k < i ==> hf(models[k], prompt).Failed?
    ensures var rest := RunChain(models[i..], prompt, hf);
      RunChain(models, prompt, hf) == ChainRun(models[..i] + rest.tried, rest.script)
    decreases i
  {
    if i > 0 {
      var tail := models[1..];
      forall k | 0 <= k < i - 1
        ensures hf(tail[k], prompt).Failed?
      {
        assert tail[k] == models[k + 1];
      }
      ChainAfterFailures(tail, prompt, hf, i - 1);
      RunChainFailed(models, prompt, hf);
      ShiftedSlices(models, i, RunChain(models[i..], prompt, hf).tried);
    } else {
      assert models[..0] == [] && models[0..] == models;
    }
  }

  /** A failed first model leaves the rest of the chain to the others. */
  lemma RunChainFailed(models: seq<string>, prompt: Prompt, hf: (string, Prompt) -> Outcome)
    requires models != [] && hf(models[0], prompt).Failed?
    ensures var rest := RunChain(models[1..], prompt, hf);
      RunChain(models, prompt, hf) == ChainRun([models[0]] + rest.tried, rest.script)
  {
  }

  lemma ShiftedSlices(models: seq<string>, i: nat, more: seq<string>)
    requires 0 < i <= |models|
    ensures models[1..][i - 1..] == models[i..]
    ensures [models[0]] + (models[1..][..i - 1] + more) == models[..i] + more
  {
    assert models[..i] == [models[0]] + models[1..][..i - 1];
  }

  /** The loop over `fallbackModels`. */
  method TryFallbackModels(prompt: Prompt, hf: (string, Prompt) -> Outcome)
    returns (tried: seq<string>, script: Option<Script>)
    ensures ChainRun(tried, script) == RunChain(FallbackModels, prompt, hf)
  {
    var i := 0;
    tried := [];
    while i < |FallbackModels|
      invariant i <= |FallbackModels| && tried == FallbackModels[..i]
      invariant forall k :: 0 <= k < i ==> hf(FallbackModels[k], prompt).Failed?
    {
      var model := FallbackModels[i];
      tried := tried + [model];
      var outcome := hf(model, prompt);
      if outcome.Produced? {
        ChainAfterFailures(FallbackModels, prompt, hf, i);
        assert FallbackModels[..i + 1] == FallbackModels[..i] + [model];
        return tried, Some(outcome.script);
      }
      i := i + 1;
    }
    ChainAfterFailures(FallbackModels, prompt, hf, i);
    assert FallbackModels[..i] == FallbackModels;
    script := None;
  }

  /** `POST /api/generate`. `contacted` lists the providers asked, in order. */
  method Post(req: GenerateRequest, groqKey: Option<string>, groq: Prompt -> Outcome,
              gemini: Prompt -> GeminiOutcome, hf: (string, Prompt) -> Outcome)
    returns (resp: GenerateResponse, contacted: seq<Provider>)
    ensures req.Unreadable? ==> resp == Crash && contacted == []
    ensures req.Body? && !Truthy(req.title) ==> resp == JsonError(400, TitleRequired) && contacted == []
    ensures req.Body? && Truthy(req.title) ==>
      var prompt := Prompt(req.title.value, PromptLanguage(req.language));
      var pre := GroqPhase(groqKey);
      && |pre| <= |contacted| && contacted[..|pre|] == pre
      && (Truthy(groqKey) && groq(prompt).Produced? ==>
            resp == Generated(groq(prompt).script) && contacted == [Groq])
      && (!(Truthy(groqKey) && groq(prompt).Produced?) ==>
            var g := gemini(prompt);
            && (g.GeminiScript? ==> resp == Generated(g.script) && contacted == pre + [Gemini])
            && (g.GeminiError? && !RateLimited(g.message, g.status) ==>
                  resp == JsonError(429, AllProvidersBusy) && contacted == pre + [Gemini])
            && (g.GeminiError? && RateLimited(g.message, g.status) ==>
                  var run := RunChain(FallbackModels, prompt, hf);
                  && contacted == pre + [Gemini] + HfProviders(run.tried)
                  && resp == (if run.script.Some? then Generated(run.script.value)
                              else JsonError(429, AllProvidersBusy))))
    ensures resp.JsonError? ==> resp.status == 400 || resp == JsonError(429, AllProvidersBusy)
  {
    if req.Unreadable? {
      return Crash, [];
    }
    if !Truthy(req.title) {
      return JsonError(400, TitleRequired), [];
    }
    var prompt := Prompt(req.title.value, PromptLanguage(req.language));
    contacted := GroqPhase(groqKey);
    if Truthy(groqKey) {
      var g := groq(prompt);
      if g.Produced? {
        return Generated(g.script), contacted;
      }
    }
    contacted := contacted + [Gemini];
    var g := gemini(prompt);
    if g.GeminiScript? {
      return Generated(g.script), contacted;
    }
    resp := JsonError(429, AllProvidersBusy);
    if RateLimited(g.message, g.status) {
      var tried, script := TryFallbackModels(prompt, hf);
      contacted := contacted + HfProviders(tried);
      if script.Some? {
        resp := Generated(script.value);
      }
    }
  }
}
