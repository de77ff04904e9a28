/**
 * The AI gateway: which provider serves the three stages, how a request to the hosted
 * inference API is retried, and how the hosted text models are tried one after another
 * until one of them produces text.
 *
 * Every reply of the outside world is a parameter: the reply the inference API gives to
 * the i-th post of a request (`nat -> Attempt`), what the optional client library returned
 * for a model, what the local Ollama server answered, and how `JSON.parse` reads a text.
 * Waiting is not performed; the pauses the service would take are returned instead.
 */
module Gateway {
  import opened Wrappers
  import opened Text
  import opened Extraction
  import opened Interpreter
  import A = AnalysisModel
  import C = CoachingModel
  import CoachingRules

  datatype Provider = Ollama | HuggingFaceProvider | Mock

  function ProviderName(p: Provider): string {
    match p
    case Ollama => "ollama"
    case HuggingFaceProvider => "huggingface"
    case Mock => "mock"
  }

  /**
   * `detectProvider`: a configured Ollama address (either variable) wins over a
   * HuggingFace key; with neither, the mock provider is used. An empty value is unset.
   */
  function DetectProvider(ollamaUrl: string, ollamaHost: string, hfKey: string): (p: Provider)
    ensures p == Ollama <==> ollamaUrl != "" || ollamaHost != ""
    ensures p == HuggingFaceProvider <==> ollamaUrl == "" && ollamaHost == "" && hfKey != ""
    ensures p == Mock <==> ollamaUrl == "" && ollamaHost == "" && hfKey == ""
  {
    if ollamaUrl != "" || ollamaHost != "" then Ollama
    else if hfKey != "" then HuggingFaceProvider
    else Mock
  }

  // ---------------------------------------------------------------- one request with retries

  /**
   * The reply to one post: a body, whose `error` field is empty when there is none, or a
   * failed exchange with its HTTP status, if any, and its message.
   */
  datatype Attempt = Reply(error: string, payload: string) | HttpFailure(status: Option<int>, message: string)

  /** What the service does after one attempt: return the payload, pause, or raise. */
  datatype Step = Done(payload: string) | Wait(ms: nat) | Raise(message: string)

  const AfterRetries := "HuggingFace request failed after retries"

  function Pow2(k: nat): (r: nat)
    ensures r >= 1
  {
    if k == 0 then 1 else 2 * Pow2(k - 1)
  }

  /** The exponential pause before retrying after attempt `k`. */
  function Backoff(k: nat): nat {
    2000 * Pow2(k)
  }

  /** `options.maxRetries || 4`. */
  function EffectiveRetries(maxRetries: int): int {
    if maxRetries == 0 then 4 else maxRetries
  }

  predicate Succeeded(at: Attempt) {
    at.Reply? && at.error == ""
  }

  /** An attempt worth an exponential pause: a body saying the model is loading, or status 503 or 429. */
  predicate Transient(at: Attempt) {
    match at
    case Reply(e, _) => e != "" && Contains(Lower(e), "loading")
    case HttpFailure(status, _) => status == Some(503) || status == Some(429)
  }

  /** The pause after a failed attempt `k` that is not the last. */
  function Pause(at: Attempt, k: nat): nat {
    if Transient(at) then Backoff(k) else 1000
  }

  /**
   * One pass of the retry loop of `hfRequest`. A successful body is returned. A transient
   * failure before the last attempt pauses exponentially; any other failure before the
   * last attempt pauses one second; a failure on the last attempt is raised, an error body
   * as "HuggingFace error: " followed by its text.
   */
  function StepOf(at: Attempt, k: nat, max: int): (s: Step)
    requires k <= max
    ensures s.Done? <==> Succeeded(at)
    ensures s.Raise? <==> !Succeeded(at) && k == max
    ensures s.Wait? ==> s.ms == Pause(at, k)
  {
    match at
    case Reply(e, p) =>
      if e == "" then Done(p)
      else if Contains(Lower(e), "loading") && k < max then Wait(Backoff(k))
      else if k == max then Raise("HuggingFace error: " + e)
      else Wait(1000)
    case HttpFailure(status, msg) =>
      if (status == Some(503) || status == Some(429)) && k < max then Wait(Backoff(k))
      else if k == max then Raise(msg)
      else Wait(1000)
  }

  /** The outcome of a request and the pauses taken on the way. */
  datatype Exchange = Exchange(result: Result<string>, waits: seq<nat>)

  /** The retry loop from attempt `k` on. */
  function RequestFrom(replies: nat -> Attempt, max: int, k: nat): Exchange
    decreases max + 1 - k
  {
    if k > max then Exchange(Err(AfterRetries), [])
    else
      match StepOf(replies(k), k, max)
      case Done(p) => Exchange(Ok(p), [])
      case Raise(m) => Exchange(Err(m), [])
      case Wait(ms) =>
        var rest := RequestFrom(replies, max, k + 1);
        Exchange(rest.result, [ms] + rest.waits)
  }

  /** `hfRequest`, as a function of the replies to successive posts. */
  function Request(replies: nat -> Attempt, maxRetries: int): Exchange {
    RequestFrom(replies, EffectiveRetries(maxRetries), 0)
  }

  /** Pause `i` of `waits` follows the failed attempt `k + i` and has the length that attempt calls for. */
  predicate PauseFits(replies: nat -> Attempt, waits: seq<nat>, k: nat, i: nat)
    requires i < |waits|
  {
    !Succeeded(replies(k + i)) && waits[i] == Pause(replies(k + i), k + i)
  }

  /** The pauses `waits` follow failed attempts `k`, `k + 1`, ... and each has the length that attempt calls for. */
  predicate PausesMatch(replies: nat -> Attempt, waits: seq<nat>, k: nat) {
    forall i: nat :: i < |waits| ==> PauseFits(replies, waits, k, i)
  }

  lemma PausesCons(replies: nat -> Attempt, ms: nat, rest: seq<nat>, k: nat)
    requires PausesMatch(replies, rest, k + 1)
    requires !Succeeded(replies(k)) && ms == Pause(replies(k), k)
    ensures PausesMatch(replies, [ms] + rest, k)
  {
    var w := [ms] + rest;
    forall i: nat | i < |w| ensures PauseFits(replies, w, k, i) {
      if i > 0 {
        assert PauseFits(replies, rest, k + 1, i - 1);
        assert w[i] == rest[i - 1] && k + i == (k + 1) + (i - 1);
      }
    }
  }

  /**
   * From attempt `k` on, the request pauses once per failed attempt before the deciding
   * one; a success returns the payload of the attempt after the pauses; when all fail, it
   * pauses after every attempt but the last.
   */
  lemma {:induction false} RequestFromPauses(replies: nat -> Attempt, max: int, k: nat)
    requires k <= max + 1
    ensures var e := RequestFrom(replies, max, k);
            && k + |e.waits| <= max + 1
            && PausesMatch(replies, e.waits, k)
            && (e.result.Ok? ==> k + |e.waits| <= max && Succeeded(replies(k + |e.waits|))
                                 && e.result.value == replies(k + |e.waits|).payload)
            && (e.result.Err? && k <= max ==> k + |e.waits| == max)
    decreases max + 1 - k
  {
    if k <= max {
      var s := StepOf(replies(k), k, max);
      if s.Wait? {
        RequestFromPauses(replies, max, k + 1);
        var rest := RequestFrom(replies, max, k + 1);
        PausesCons(replies, s.ms, rest.waits, k);
        assert RequestFrom(replies, max, k).waits == [s.ms] + rest.waits;
      }
    }
  }

  /** From attempt `k` on, the request succeeds exactly when some attempt up to the last succeeds. */
  lemma {:induction false} RequestFromSucceeds(replies: nat -> Attempt, max: int, k: nat)
    requires k <= max + 1
    ensures RequestFrom(replies, max, k).result.Ok? <==> exists a :: k <= a <= max && Succeeded(replies(a))
    decreases max + 1 - k
  {
    if k <= max {
      var s := StepOf(replies(k), k, max);
      if s.Wait? {
        RequestFromSucceeds(replies, max, k + 1);
        assert RequestFrom(replies, max, k).result == RequestFrom(replies, max, k + 1).result;
        assert !Succeeded(replies(k));
      } else if s.Raise? {
        assert k == max && !Succeeded(replies(k));
      } else {
        assert Succeeded(replies(k));
      }
    }
  }

  /**
   * `hfRequest` with a non-negative retry budget: it posts at most budget + 1 times,
   * succeeds exactly when one of those posts succeeds, returning the first successful
   * payload, and pauses after each failed post but a final one with one second or the
   * exponential backoff for loading models and rate limits.
   */
  lemma RequestOutcome(replies: nat -> Attempt, maxRetries: int)
    requires EffectiveRetries(maxRetries) >= 0
    ensures var e := Request(replies, maxRetries);
            var max := EffectiveRetries(maxRetries);
            && |e.waits| <= max
            && PausesMatch(replies, e.waits, 0)
            && (e.result.Ok? <==> exists a :: 0 <= a <= max && Succeeded(replies(a)))
            && (e.result.Ok? ==> Succeeded(replies(|e.waits|)) && e.result.value == replies(|e.waits|).payload)
            && (e.result.Err? ==> |e.waits| == max)
  {
    RequestFromPauses(replies, EffectiveRetries(maxRetries), 0);
    RequestFromSucceeds(replies, EffectiveRetries(maxRetries), 0);
  }

  /** With a negative retry budget nothing is posted and the request fails at once. */
  lemma NegativeBudgetPostsNothing(replies: nat -> Attempt, maxRetries: int)
    requires maxRetries < 0
    ensures Request(replies, maxRetries) == Exchange(Err(AfterRetries), [])
  {
  }

  /** One pass of the retry loop decides the exchange or defers it to the next attempt. */
  lemma RequestFromStep(replies: nat -> Attempt, max: int, k: nat)
    requires k <= max
    ensures var s := StepOf(replies(k), k, max);
            var e := RequestFrom(replies, max, k);
            var next := RequestFrom(replies, max, k + 1);
            && (s.Done? ==> e == Exchange(Ok(s.payload), []))
            && (s.Raise? ==> e == Exchange(Err(s.message), []))
            && (s.Wait? ==> e == Exchange(next.result, [s.ms] + next.waits))
  {
  }

  /** The retry loop of `hfRequest`. */
  method HfRequest(replies: nat -> Attempt, maxRetries: int) returns (result: Result<string>, waits: seq<nat>)
    ensures Exchange(result, waits) == Request(replies, maxRetries)
  {
    var max := EffectiveRetries(maxRetries);
    waits := [];
    var k: nat := 0;
    while k <= max
      invariant k == 0 || k <= max + 1
      invariant Request(replies, maxRetries) == Joined(waits, RequestFrom(replies, max, k))
      decreases max + 1 - k
    {
      var step := StepOf(replies(k), k, max);
      RequestFromStep(replies, max, k);
      match step
      case Done(p) =>
        JoinedDone(waits, Ok(p));
        return Ok(p), waits;
      case Raise(m) =>
        JoinedDone(waits, Err(m));
        return Err(m), waits;
      case Wait(ms) =>
        JoinedWait(waits, ms, RequestFrom(replies, max, k + 1));
        waits := waits + [ms];
        k := k + 1;
    }
    JoinedDone(waits, Err(AfterRetries));
    result := Err(AfterRetries);
  }

  /** The exchange `e` continued after the pauses `waits` already taken. */
  function Joined(waits: seq<nat>, e: Exchange): Exchange {
    Exchange(e.result, waits + e.waits)
  }

  lemma JoinedDone(waits: seq<nat>, r: Result<string>)
    ensures Joined(waits, Exchange(r, [])) == Exchange(r, waits)
  {
    assert waits + [] == waits;
  }

  lemma JoinedWait(waits: seq<nat>, ms: nat, next: Exchange)
    ensures Joined(waits, Exchange(next.result, [ms] + next.waits)) == Joined(waits + [ms], next)
  {
    assert waits + ([ms] + next.waits) == (waits + [ms]) + next.waits;
  }

  // ---------------------------------------------------------------- trying the models in turn

  /** What the optional client library did for a model; an empty text is no text. */
  datatype ClientOutcome = NoClient | ClientThrew | ClientText(text: string)

  /** Everything one model does when asked: the client's outcome, then the replies to the HTTP posts. */
  datatype ModelTrial = ModelTrial(client: ClientOutcome, http: nat -> Attempt)

  /**
   * The text a model yields: the client's text when it returned some, else the payload
   * of the HTTP request; empty when neither produced text.
   */
  function ModelText(t: ModelTrial, maxRetries: int): (r: string)
    ensures t.client.ClientText? && t.client.text != "" ==> r == t.client.text
    ensures !(t.client.ClientText? && t.client.text != "") && Request(t.http, maxRetries).result.Ok? ==>
              r == Request(t.http, maxRetries).result.value
    ensures !(t.client.ClientText? && t.client.text != "") && Request(t.http, maxRetries).result.Err? ==> r == ""
  {
    if t.client.ClientText? && t.client.text != "" then t.client.text
    else
      match Request(t.http, maxRetries).result
      case Ok(p) => p
      case Err(_) => ""
  }

  /** The first non-empty text the models yield, in list order. */
  function FirstText(models: seq<string>, trialOf: string -> ModelTrial, maxRetries: int): (r: Option<string>)
    ensures r.Some? ==> r.value != ""
    ensures r.None? <==> forall i :: 0 <= i < |models| ==> ModelText(trialOf(models[i]), maxRetries) == ""
    ensures r.Some? ==> exists i :: 0 <= i < |models| && r.value == ModelText(trialOf(models[i]), maxRetries)
                                    && forall j :: 0 <= j < i ==> ModelText(trialOf(models[j]), maxRetries) == ""
  {
    if models == [] then None
    else
      var here := ModelText(trialOf(models[0]), maxRetries);
      if here != "" then Some(here)
      else
        var rest := FirstText(models[1..], trialOf, maxRetries);
        assert forall i :: 1 <= i < |models| ==> models[i] == models[1..][i - 1];
        if rest.Some? then
          var i :| 0 <= i < |models[1..]| && rest.value == ModelText(trialOf(models[1..][i]), maxRetries)
                   && forall j :: 0 <= j < i ==> ModelText(trialOf(models[1..][j]), maxRetries) == "";
          assert rest.value == ModelText(trialOf(models[i + 1]), maxRetries);
          rest
        else
          rest
  }

  /**
   * The model loop of `analyzeWithHuggingFace` and `coachingWithHuggingFace`: for each
   * model, the client first, then HTTP; the first text wins.
   */
  method FirstGeneratedText(models: seq<string>, trialOf: string -> ModelTrial, maxRetries: int) returns (text: Option<string>)
    ensures text == FirstText(models, trialOf, maxRetries)
  {
    for i := 0 to |models|
      invariant FirstText(models, trialOf, maxRetries) == FirstText(models[i..], trialOf, maxRetries)
    {
      assert models[i..][1..] == models[i + 1..];
      var t := trialOf(models[i]);
      if t.client.ClientText? && t.client.text != "" {
        return Some(t.client.text);
      }
      var result, waits := HfRequest(t.http, maxRetries);
      if result.Ok? && result.value != "" {
        return Some(result.value);
      }
    }
    assert models[|models|..] == [];
    return None;
  }

  const AnalysisModels: seq<string> :=
    ["mistralai/Mistral-7B-Instruct-v0.1", "google/flan-t5-large", "facebook/blenderbot-400M-distill"]

  const CoachingModels: seq<string> :=
    ["mistralai/Mistral-7B-Instruct-v0.1", "google/flan-t5-large", "mistralai/mistral-small"]

  const AnalysisFallbackText := "Analysis completed using open-source LLM"

  const CoachingFallbackText := "Coaching recommendations generated using open-source AI"

  /** `analyzeWithHuggingFace`: the first generated text, parsed; the fixed sentence when no model produced any. */
  function HuggingFaceAnalysis(trialOf: string -> ModelTrial, jsonOf: string -> JsonText<A.AnalysisResult>): (r: A.AnalysisResult)
    ensures r.provider == HuggingFace
  {
    match FirstText(AnalysisModels, trialOf, 4)
    case Some(t) => ParseAnalysis(t, jsonOf(t))
    case None => ParseAnalysis(AnalysisFallbackText, NotJson)
  }

  /** `coachingWithHuggingFace`: the first generated text, parsed; the fixed sentence when no model produced any. */
  function HuggingFaceCoaching(trialOf: string -> ModelTrial, jsonOf: string -> JsonText<C.CoachingResult>): (r: C.CoachingResult)
    ensures r.provider == HuggingFace
  {
    match FirstText(CoachingModels, trialOf, 4)
    case Some(t) => ParseCoaching(t, jsonOf(t))
    case None => ParseCoaching(CoachingFallbackText, NotJson)
  }

  method AnalyzeWithHuggingFace(trialOf: string -> ModelTrial, jsonOf: string -> JsonText<A.AnalysisResult>) returns (r: A.AnalysisResult)
    ensures r == HuggingFaceAnalysis(trialOf, jsonOf)
  {
    var text := FirstGeneratedText(AnalysisModels, trialOf, 4);
    match text
    case Some(t) =>
      r := ParseAnalysis(t, jsonOf(t));
    case None =>
      r := ParseAnalysis(AnalysisFallbackText, NotJson);
  }

  method CoachingWithHuggingFace(trialOf: string -> ModelTrial, jsonOf: string -> JsonText<C.CoachingResult>) returns (r: C.CoachingResult)
    ensures r == HuggingFaceCoaching(trialOf, jsonOf)
  {
    var text := FirstGeneratedText(CoachingModels, trialOf, 4);
    match text
    case Some(t) =>
      r := ParseCoaching(t, jsonOf(t));
    case None =>
      r := ParseCoaching(CoachingFallbackText, NotJson);
  }

  /** A text without digits yields no number for any keyword. */
  lemma NoDigitsNoNumber(text: string, words: seq<string>)
    requires forall i :: 0 <= i < |text| ==> !IsDigit(text[i])
    ensures ExtractNumericValue(text, words).None?
  {
    var lt := Lower(text);
    assert forall i :: 0 <= i < |lt| ==> !IsDigit(lt[i]);
    forall k, i | 0 <= i && i + |k| <= |lt| ensures NumberAt(lt, k, i).None? {
      var j := SkipSeparators(lt, i + |k|);
      assert DigitsEnd(lt, j) == j;
    }
  }

  lemma FallbackHasNoDigits()
    ensures forall i :: 0 <= i < |AnalysisFallbackText| ==> !IsDigit(AnalysisFallbackText[i])
  {
  }

  /** The analysis extracted from the fixed sentence is storable: it holds no number. */
  lemma FallbackTextStorable()
    ensures A.ResultValid(ExtractAnalysisFromText(AnalysisFallbackText))
  {
    var s := AnalysisFallbackText;
    FallbackHasNoDigits();
    NoDigitsNoNumber(s, OpeningWords);
    NoDigitsNoNumber(s, UnderstandingWords);
    NoDigitsNoNumber(s, ResolutionWords);
    NoDigitsNoNumber(s, OverallWords);
    assert ReadsAsPercentage(s, OpeningWords) && ReadsAsPercentage(s, UnderstandingWords);
    assert ReadsAsPercentage(s, ResolutionWords) && ReadsAsPercentage(s, OverallWords);
  }

  /**
   * When no model produces text, the result is the analysis extracted from the fixed
   * sentence, which `FallbackTextStorable` shows storable.
   */
  lemma SilentModelsGiveFallbackAnalysis(trialOf: string -> ModelTrial, jsonOf: string -> JsonText<A.AnalysisResult>)
    requires FirstText(AnalysisModels, trialOf, 4).None?
    ensures HuggingFaceAnalysis(trialOf, jsonOf) == ExtractAnalysisFromText(AnalysisFallbackText)
  {
  }

  /**
   * A HuggingFace coaching plan is storable unless a model answered with JSON whose
   * decoded plan is not: every free-text answer, and the fixed sentence, is non-empty.
   */
  lemma HuggingFaceCoachingStorable(trialOf: string -> ModelTrial, jsonOf: string -> JsonText<C.CoachingResult>)
    requires forall t :: jsonOf(t).JsonWith? ==> C.ResultValid(jsonOf(t).value)
    ensures C.ResultValid(HuggingFaceCoaching(trialOf, jsonOf))
  {
  }

  // ---------------------------------------------------------------- transcription

  /** A transcript and the provider that produced it; the duration is never reported. */
  datatype Transcription = Transcription(text: string, provider: string)

  const DefaultWhisperModel := "openai/whisper-large-v3"

  function WhisperModel(configured: string): string {
    if configured != "" then configured else DefaultWhisperModel
  }

  const MockTranscription := Transcription(MockTranscript, "mock")

  /**
   * `transcribeWithHuggingFace`: the client's text, else the HTTP payload (up to five
   * retries), tagged with the model; an unreadable file, an error or an empty answer
   * yields the mock transcript instead. It never fails and never returns an empty text.
   */
  function HuggingFaceTranscription(readable: bool, client: ClientOutcome, http: nat -> Attempt, configured: string): (r: Transcription)
    ensures r.text != ""
    ensures r == MockTranscription || r.provider == "huggingface:" + WhisperModel(configured)
    ensures !readable ==> r == MockTranscription
    ensures readable && client.ClientText? && client.text != "" ==>
              r == Transcription(client.text, "huggingface:" + WhisperModel(configured))
    ensures readable && !(client.ClientText? && client.text != "") ==>
              var answer := Request(http, 5).result;
              r == if answer.Ok? && answer.value != "" then Transcription(answer.value, "huggingface:" + WhisperModel(configured))
                   else MockTranscription
  {
    MockTranscriptNonEmpty();
    var tag := "huggingface:" + WhisperModel(configured);
    if !readable then MockTranscription
    else if client.ClientText? && client.text != "" then Transcription(client.text, tag)
    else
      match Request(http, 5).result
      case Ok(p) => if p != "" then Transcription(p, tag) else MockTranscription
      case Err(_) => MockTranscription
  }

  // ---------------------------------------------------------------- dispatch

  /** `transcribeAudio`: Ollama cannot transcribe; the other providers always succeed. */
  function Transcribe(p: Provider, readable: bool, client: ClientOutcome, http: nat -> Attempt, configured: string): (r: Result<Transcription>)
    ensures r.Err? <==> p == Ollama
    ensures r.Err? ==> r.message == "Unsupported provider: ollama"
    ensures r.Ok? ==> r.value.text != ""
    ensures p == Mock ==> r == Ok(MockTranscription)
    ensures p == HuggingFaceProvider ==> r == Ok(HuggingFaceTranscription(readable, client, http, configured))
  {
    match p
    case HuggingFaceProvider => Ok(HuggingFaceTranscription(readable, client, http, configured))
    case Mock => MockTranscriptNonEmpty(); Ok(MockTranscription)
    case Ollama => Err("Unsupported provider: " + ProviderName(p))
  }

  /** `analyzeCall`: the mock analysis, the HuggingFace pipeline, or Ollama's flat reply; only Ollama's server can fail. */
  function Analyze(p: Provider, trialOf: string -> ModelTrial, jsonOf: string -> JsonText<A.AnalysisResult>,
                   ollama: Result<string>): (r: Result<AnalysisReply>)
    ensures r.Err? <==> p == Ollama && ollama.Err?
    ensures p == Mock ==> r.Ok? && Storable(r.value) && r.value == Shaped(MockAnalysis())
    ensures p == HuggingFaceProvider ==> r == Ok(Shaped(HuggingFaceAnalysis(trialOf, jsonOf)))
    ensures p == Ollama && r.Ok? ==> !Storable(r.value)
  {
    match p
    case HuggingFaceProvider => Ok(Shaped(HuggingFaceAnalysis(trialOf, jsonOf)))
    case Mock => Ok(Shaped(MockAnalysis()))
    case Ollama =>
      match ollama
      case Ok(text) => Ok(OllamaAnalysis(text))
      case Err(m) => Err(m)
  }

  /** `generateCoaching`: the rule-based plan, the HuggingFace pipeline, or Ollama's wrapped reply; only Ollama's server can fail. */
  function GenerateCoaching(p: Provider, analysis: A.Analysis, trialOf: string -> ModelTrial,
                            jsonOf: string -> JsonText<C.CoachingResult>, ollama: Result<string>): (r: Result<C.CoachingResult>)
    ensures r.Err? <==> p == Ollama && ollama.Err?
    ensures p == Mock ==> r.Ok? && C.ResultValid(r.value) && r.value.provider == "mock"
    ensures p == Mock ==> r == Ok(CoachingRules.DetailedCoaching(analysis, "mock"))
    ensures p == HuggingFaceProvider ==> r == Ok(HuggingFaceCoaching(trialOf, jsonOf))
    ensures p == Ollama && r.Ok? ==> (C.ResultValid(r.value) <==> ollama.value != "")
  {
    match p
    case HuggingFaceProvider => Ok(HuggingFaceCoaching(trialOf, jsonOf))
    case Mock => Ok(CoachingRules.DetailedCoaching(analysis, ProviderName(p)))
    case Ollama =>
      match ollama
      case Ok(text) => Ok(OllamaCoaching(text))
      case Err(m) => Err(m)
  }
}
