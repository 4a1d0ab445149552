/** The summarizer: one completion request per cache miss, to the model named
    "gpt-4o-mini". A provider failure is not an error: it yields an empty
    summary, and files with an empty summary are not forwarded. */
module Summarizing {
  import opened SummaryTypes

  const SummaryModelName := "gpt-4o-mini"
  const PromptBeforeCode := "Summarize this code in 3 sentences, using no newlines or bullet points in the summary:"

  datatype Role = User

  datatype RequestMessage = RequestMessage(role: Role, content: string)

  /** A completion request: its messages and stop sequences (the fixed
      temperature is not modelled). */
  datatype Request = Request(messages: seq<RequestMessage>, stop: seq<string>)

  /** A model of the language-model registry, known by its name. */
  datatype LanguageModel = LanguageModel(name: string, provider: string)

  /** The prompt for `code`: the fixed instruction, a newline, then the code. */
  function Prompt(code: string): string
  {
    PromptBeforeCode + "\n" + code
  }

  /** The prompt starts with the instruction line and the code can be read back from it. */
  lemma PromptParts(code: string)
    ensures Prompt(code)[..|PromptBeforeCode|] == PromptBeforeCode
    ensures Prompt(code)[|PromptBeforeCode|] == '\n'
    ensures Prompt(code)[|PromptBeforeCode| + 1..] == code
  {
  }

  /** Different code gives different prompts. */
  lemma PromptInjective(a: string, b: string)
    requires Prompt(a) == Prompt(b)
    ensures a == b
  {
    PromptParts(a);
    PromptParts(b);
  }

  /** The one request sent for `code`: a single user message holding the prompt, no stop sequences. */
  function SummaryRequest(code: string): Request
  {
    Request([RequestMessage(User, Prompt(code))], [])
  }

  /** The index of the first model called `name`, or `|models|` when there is none. */
  function FirstModelNamed(models: seq<LanguageModel>, name: string, from: nat): (i: nat)
    requires from <= |models|
    ensures from <= i <= |models|
    ensures forall j | from <= j < i :: models[j].name != name
    ensures i < |models| ==> models[i].name == name
    decreases |models| - from
  {
    if from == |models| || models[from].name == name then from else FirstModelNamed(models, name, from + 1)
  }

  /** The registry lookup of the summarization model: the first available
      model with that name, in registry order. */
  function SummaryModel(models: seq<LanguageModel>): (r: Option<LanguageModel>)
    ensures r.None? <==> forall m | m in models :: m.name != SummaryModelName
    ensures r.Some? ==> r.value in models && r.value.name == SummaryModelName
    ensures r.Some? ==> exists i | 0 <= i < |models| ::
                          models[i] == r.value && forall j | 0 <= j < i :: models[j].name != SummaryModelName
  {
    var i := FirstModelNamed(models, SummaryModelName, 0);
    if i < |models| then Some(models[i]) else None
  }

  /** The text of a completion, with a provider failure read as the empty string. */
  function OrEmpty(answer: Option<string>): string
  {
    match answer
    case None => ""
    case Some(text) => text
  }

  /** `summarize_code`: a missing model is an error; otherwise the answer of
      the provider (`complete`, `None` standing for any failure), or "" when
      the provider failed. */
  function SummarizeCode(code: string, models: seq<LanguageModel>,
                         complete: (Request, LanguageModel) -> Option<string>): (r: Result<string>)
    ensures r.Err? <==> forall m | m in models :: m.name != SummaryModelName
    ensures r.Err? ==> r.error == ModelNotFound
    ensures r.Ok? ==> SummaryModel(models).Some?
    ensures r.Ok? && complete(SummaryRequest(code), SummaryModel(models).value).None? ==> r.value == ""
    ensures r.Ok? && complete(SummaryRequest(code), SummaryModel(models).value).Some?
            ==> r.value == complete(SummaryRequest(code), SummaryModel(models).value).value
  {
    match SummaryModel(models)
    case None => Err(ModelNotFound)
    case Some(model) => Ok(OrEmpty(complete(SummaryRequest(code), model)))
  }

  /** The files the summarizer forwards for `files` once `model` is found, in order. */
  function Summarized(files: seq<UnsummarizedFile>, model: LanguageModel,
                      complete: (Request, LanguageModel) -> Option<string>): seq<SummarizedFile>
    decreases |files|
  {
    if files == [] then []
    else
      var init := Summarized(files[..|files| - 1], model, complete);
      var f := files[|files| - 1];
      var summary := OrEmpty(complete(SummaryRequest(f.contents), model));
      if summary != "" then init + [SummarizedFile(f.path, f.mtime, f.digest, summary)] else init
  }

  /** `s` is what the summarizer forwards for `f`: the same path, mtime and
      digest, and the provider's non-empty answer for `f`'s contents. */
  predicate Forwards(f: UnsummarizedFile, s: SummarizedFile, model: LanguageModel,
                     complete: (Request, LanguageModel) -> Option<string>)
  {
    && s.path == f.path && s.mtime == f.mtime && s.digest == f.digest
    && s.summary != ""
    && complete(SummaryRequest(f.contents), model) == Some(s.summary)
  }

  /** A summarized file is forwarded iff some cache miss has exactly its path,
      mtime and digest and the provider answered that miss with its
      non-empty summary. A provider failure or an empty answer forwards nothing. */
  lemma {:induction false} SummarizedMembership(files: seq<UnsummarizedFile>, model: LanguageModel,
                                                complete: (Request, LanguageModel) -> Option<string>,
                                                s: SummarizedFile)
    ensures s in Summarized(files, model, complete) <==> exists f | f in files :: Forwards(f, s, model, complete)
    decreases |files|
  {
    if files != [] {
      var init := files[..|files| - 1];
      var f := files[|files| - 1];
      SummarizedMembership(init, model, complete, s);
      assert files == init + [f];
      var summary := OrEmpty(complete(SummaryRequest(f.contents), model));
      if summary != "" {
        var g := SummarizedFile(f.path, f.mtime, f.digest, summary);
        assert Summarized(files, model, complete) == Summarized(init, model, complete) + [g];
        assert s == g <==> Forwards(f, s, model, complete);
      } else {
        assert !Forwards(f, s, model, complete);
      }
    }
  }

  /** `summarize_files`: the summarizer task over the cache misses. */
  method SummarizeFiles(files: seq<UnsummarizedFile>, models: seq<LanguageModel>,
                        complete: (Request, LanguageModel) -> Option<string>)
    returns (r: StageResult<SummarizedFile>)
    ensures SummaryModel(models).Some? ==> r == StageResult(Summarized(files, SummaryModel(models).value, complete), None)
    ensures SummaryModel(models).None? && files != [] ==> r == StageResult([], Some(ModelNotFound))
    ensures files == [] ==> r == StageResult([], None)
  {
    var sent := [];
    for i := 0 to |files|
      invariant SummaryModel(models).Some? ==> sent == Summarized(files[..i], SummaryModel(models).value, complete)
      invariant SummaryModel(models).None? ==> i == 0 && sent == []
    {
      var f := files[i];
      var summary := SummarizeCode(f.contents, models, complete);
      if summary.Err? {
        return StageResult(sent, Some(summary.error));
      }
      assert files[..i + 1][..i] == files[..i];
      if summary.value != "" {
        sent := sent + [SummarizedFile(f.path, f.mtime, f.digest, summary.value)];
      }
    }
    assert files[..|files|] == files;
    r := StageResult(sent, None);
  }
}
