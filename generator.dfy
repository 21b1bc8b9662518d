/**
 * The lyrics and music generators (apps/generation/generator.py): provider configuration and
 * defaulting, dispatch by provider name, the checks applied to a hosted provider's reply, the
 * prompt handling of the local model, the music prompt, and the two module-level caches.
 * The language models and the music model are oracles: functions from the request the source
 * sends to the reply it gets back (a value, or the text of the exception raised).
 */
module Generator {
  import opened Wrappers
  import opened Text

  /** The settings the generators read (config/settings.py). */
  datatype Settings = Settings(
    llmProvider: string,           // LLM_PROVIDER, 'local' by default
    openaiApiKey: Option<string>,  // OPENAI_API_KEY
    cometApiKey: Option<string>,   // COMET_API_KEY
    cometApiBaseUrl: string,       // COMET_API_BASE_URL
    maxConcurrentTasks: nat,       // MAX_CONCURRENT_TASKS, 3 by default
    debug: bool)                   // DEBUG

  /** The instruction sent with every lyrics request. */
  const SystemPrompt: string := "You are a creative songwriter. Generate song lyrics based on the user's request."

  /** A constructed `LyricsGenerator`: the attributes `__init__` assigns. */
  datatype LyricsGenerator = LyricsGenerator(
    provider: string,
    baseUrl: Option<string>,
    model: Option<string>,
    apiKey: Option<string>)

  /** The model name `__init__` falls back to when none (or an empty one) is given. */
  function DefaultModel(provider: string): Option<string> {
    if provider == "openai" then Some("gpt-3.5-turbo")
    else if provider == "comet" then Some("claude-sonnet-4-5")
    else if provider == "custom" then Some("gpt-3.5-turbo")
    else None
  }

  /** The attributes `__init__` assigns, before the local model is loaded or the key checked. */
  function LyricsConfig(settings: Settings, apiKey: Option<string>, provider: Option<string>,
                        baseUrl: Option<string>, model: Option<string>): LyricsGenerator
  {
    var p := if Truthy(provider) then provider.value else settings.llmProvider;
    var m := if !Truthy(model) && DefaultModel(p).Some? then DefaultModel(p) else model;
    // the settings are consulted only when no key at all (`None`) was passed
    var key := if apiKey.Some? then apiKey
               else if p == "openai" then settings.openaiApiKey
               else if p == "comet" then settings.cometApiKey
               else None;
    LyricsGenerator(p, baseUrl, m, key)
  }

  /** A generator `__init__` can finish constructing: the local one, or one with a key. */
  predicate Constructible(g: LyricsGenerator) {
    g.provider == "local" || Truthy(g.apiKey)
  }

  /**
   * `LyricsGenerator(provider, api_key, base_url, model)`. `localLoad` is what loading the
   * local model raised, if anything.
   */
  function NewLyricsGenerator(settings: Settings, apiKey: Option<string>, provider: Option<string>,
                              baseUrl: Option<string>, model: Option<string>,
                              localLoad: Option<string>): (r: Result<LyricsGenerator>)
    ensures r.Ok? ==> r.value == LyricsConfig(settings, apiKey, provider, baseUrl, model) && Constructible(r.value)
    ensures r.Err? && LyricsConfig(settings, apiKey, provider, baseUrl, model).provider != "local" ==>
              r.error == "API key required for provider: " + LyricsConfig(settings, apiKey, provider, baseUrl, model).provider
    ensures r.Err? <==> !Constructible(LyricsConfig(settings, apiKey, provider, baseUrl, model))
                        || (LyricsConfig(settings, apiKey, provider, baseUrl, model).provider == "local" && localLoad.Some?)
  {
    var g := LyricsConfig(settings, apiKey, provider, baseUrl, model);
    if g.provider == "local" then
      (if localLoad.Some? then Err(localLoad.value) else Ok(g))
    else if !Truthy(g.apiKey) then Err("API key required for provider: " + g.provider)
    else Ok(g)
  }

  /** The default model of each hosted provider, and none for the local one. */
  lemma DefaultModels(settings: Settings, apiKey: Option<string>, p: string, baseUrl: Option<string>)
    requires p != ""
    ensures p == "openai" ==> LyricsConfig(settings, apiKey, Some(p), baseUrl, None).model == Some("gpt-3.5-turbo")
    ensures p == "comet" ==> LyricsConfig(settings, apiKey, Some(p), baseUrl, None).model == Some("claude-sonnet-4-5")
    ensures p == "custom" ==> LyricsConfig(settings, apiKey, Some(p), baseUrl, None).model == Some("gpt-3.5-turbo")
    ensures p == "local" ==> LyricsConfig(settings, apiKey, Some(p), baseUrl, None).model == None
    ensures p == "local" ==> LyricsConfig(settings, apiKey, Some(p), baseUrl, Some("")).model == Some("")
  {
  }

  /**
   * Without a key of its own, a hosted provider other than OpenAI and Comet fails at
   * construction; and an empty key is never replaced by the one in the settings.
   */
  lemma MissingKeyRaises(settings: Settings, p: string, key: Option<string>, baseUrl: Option<string>,
                         model: Option<string>, localLoad: Option<string>)
    requires p != "" && p != "local"
    requires key == Some("") || (key == None && p != "openai" && p != "comet")
    ensures NewLyricsGenerator(settings, key, Some(p), baseUrl, model, localLoad)
            == Err("API key required for provider: " + p)
  {
  }

  /** OpenAI and Comet fall back to the key in the settings when none is passed. */
  lemma KeyFromSettings(settings: Settings, baseUrl: Option<string>, model: Option<string>, localLoad: Option<string>)
    ensures NewLyricsGenerator(settings, None, Some("openai"), baseUrl, model, localLoad).Ok?
            <==> Truthy(settings.openaiApiKey)
    ensures NewLyricsGenerator(settings, None, Some("comet"), baseUrl, model, localLoad).Ok?
            <==> Truthy(settings.cometApiKey)
  {
  }

  /** The request a hosted provider receives: the OpenAI client's chat-completion call. */
  datatype ChatRequest = ChatRequest(
    baseUrl: Option<string>,  // None: the OpenAI client's default endpoint
    apiKey: Option<string>,
    model: Option<string>,
    system: string,
    user: string,
    maxTokens: int)

  /** The request the local model receives: the prompt it is given and the tokens it may add. */
  datatype LocalRequest = LocalRequest(fullPrompt: string, maxNewTokens: int)

  /**
   * A hosted reply's `message.content` (`None` when absent), or the exception the call raised.
   */
  type ChatModel = ChatRequest -> Result<Option<string>>

  /** The local model's full decoded output, or the exception inference raised. */
  type LocalModel = LocalRequest -> Result<string>

  /** The prompt handed to the local model. */
  function FullLocalPrompt(prompt: string): (r: string)
    ensures StartsWith(r, SystemPrompt) && r != []
  {
    SystemPrompt + "\n\nUser: " + prompt + "\n\nLyrics:"
  }

  /** A reply that is an HTML error page rather than lyrics. */
  predicate IsHtml(text: string) {
    StartsWith(Strip(text), "<!DOCTYPE") || StartsWith(Strip(text), "<html")
  }

  const HtmlFromKeyedApi: string := "API returned HTML instead of lyrics. Check API key and endpoint."
  const HtmlFromCustomApi: string := "API returned HTML instead of lyrics. Check API endpoint and configuration."

  /** A missing content reaching `.strip()`. */
  const NoneHasNoStrip: string := "'NoneType' object has no attribute 'strip'"
  /** A missing content reaching the `DEBUG` print's `len(lyrics)`. */
  const NoneHasNoLen: string := "object of type 'NoneType' has no len()"

  /**
   * What `_generate_openai`, `_generate_comet` and `_generate_custom` make of a hosted reply:
   * an HTML page raises `ValueError`, other text is returned stripped. A missing content fails
   * on `.strip()`, unless `lengthFirst`: OpenAI and custom skip the HTML test for it, so under
   * `DEBUG` the print's `len()` raises first.
   */
  function AcceptHosted(reply: Result<Option<string>>, htmlMessage: string, lengthFirst: bool): (r: Result<string>)
    ensures reply.Ok? && reply.value.Some? && IsHtml(reply.value.value) ==> r == Err(htmlMessage)
    ensures reply.Ok? && reply.value.Some? && !IsHtml(reply.value.value) ==> r == Ok(Strip(reply.value.value))
    ensures reply.Ok? && reply.value.None? ==> r == Err(if lengthFirst then NoneHasNoLen else NoneHasNoStrip)
    ensures reply.Err? ==> r == Err(reply.error)
    ensures r.Ok? ==> !StartsWith(r.value, "<!DOCTYPE") && !StartsWith(r.value, "<html")
  {
    match reply
    case Err(e) => Err(e)
    case Ok(None) => Err(if lengthFirst then NoneHasNoLen else NoneHasNoStrip)
    case Ok(Some(text)) =>
      if IsHtml(text) then Err(htmlMessage) else Ok(Strip(text))
  }

  /** `_generate_local`: the output with every copy of the prompt removed, then stripped. */
  function LocalLyrics(prompt: string, raw: string): string {
    Strip(RemoveAll(raw, FullLocalPrompt(prompt)))
  }

  /**
   * When the local model echoes its prompt and then generates text not containing it, the
   * result is exactly the generated text, stripped.
   */
  lemma LocalEchoRemoved(prompt: string, generated: string)
    requires forall i: nat :: !OccursAt(generated, FullLocalPrompt(prompt), i)
    ensures LocalLyrics(prompt, FullLocalPrompt(prompt) + generated) == Strip(generated)
  {
    var full := FullLocalPrompt(prompt);
    var raw := full + generated;
    assert raw[..|full|] == full;
    assert raw[|full|..] == generated;
    RemoveAllAbsent(generated, full);
  }

  /** The chat request each hosted provider sends. */
  function HostedRequest(g: LyricsGenerator, settings: Settings, prompt: string, maxLength: int): ChatRequest {
    var url := if g.provider == "comet" then Some(settings.cometApiBaseUrl)
               else if g.provider == "custom" then (if Truthy(g.baseUrl) then g.baseUrl else Some("http://localhost:8000"))
               else None;
    ChatRequest(url, g.apiKey, g.model, SystemPrompt, prompt, maxLength)
  }

  predicate IsHosted(provider: string) {
    provider == "openai" || provider == "comet" || provider == "custom"
  }

  /**
   * `LyricsGenerator.generate`: OpenAI, Comet and custom go to their hosted endpoint, every
   * other provider to the local model, which only a generator built for 'local' has loaded.
   */
  function Generate(g: LyricsGenerator, settings: Settings, prompt: string, maxLength: int,
                    chat: ChatModel, local: LocalModel): (r: Result<string>)
    ensures IsHosted(g.provider) ==>
              r == AcceptHosted(chat(HostedRequest(g, settings, prompt, maxLength)),
                                if g.provider == "custom" then HtmlFromCustomApi else HtmlFromKeyedApi,
                                settings.debug && g.provider != "comet")
    ensures g.provider == "local" ==>
              r == (match local(LocalRequest(FullLocalPrompt(prompt), maxLength))
                    case Ok(raw) => Ok(LocalLyrics(prompt, raw))
                    case Err(e) => Err(e))
    ensures !IsHosted(g.provider) && g.provider != "local" ==> r.Err?
  {
    if g.provider == "openai" then
      AcceptHosted(chat(HostedRequest(g, settings, prompt, maxLength)), HtmlFromKeyedApi, settings.debug)
    else if g.provider == "comet" then
      AcceptHosted(chat(HostedRequest(g, settings, prompt, maxLength)), HtmlFromKeyedApi, false)
    else if g.provider == "custom" then
      AcceptHosted(chat(HostedRequest(g, settings, prompt, maxLength)), HtmlFromCustomApi, settings.debug)
    else if g.provider != "local" then
      Err("'LyricsGenerator' object has no attribute 'tokenizer'")
    else
      match local(LocalRequest(FullLocalPrompt(prompt), maxLength))
      case Ok(raw) => Ok(LocalLyrics(prompt, raw))
      case Err(e) => Err(e)
  }

  /** Lyrics accepted from a hosted provider are already stripped and are never an HTML page. */
  lemma HostedLyricsClean(g: LyricsGenerator, settings: Settings, prompt: string, maxLength: int,
                          chat: ChatModel, local: LocalModel)
    requires IsHosted(g.provider)
    requires Generate(g, settings, prompt, maxLength, chat, local).Ok?
    ensures var l := Generate(g, settings, prompt, maxLength, chat, local).value;
            Strip(l) == l && !IsHtml(l)
  {
    var reply := chat(HostedRequest(g, settings, prompt, maxLength));
    TrimIdempotent(IsPyWhitespace, reply.value.value);
  }

  /** `MusicGenerator`: loaded through `AceStepInference`, or by the manual fallback. */
  datatype MusicGenerator = MusicGenerator(viaInference: bool)

  /** How loading the music model went: `_load_model`, then `_load_model_manual` if that raised. */
  datatype MusicLoad = InferenceLoaded | ManualLoaded | LoadFailed(message: string)

  function NewMusicGenerator(load: MusicLoad): (r: Result<MusicGenerator>)
    ensures r.Ok? <==> !load.LoadFailed?
    ensures r.Ok? ==> (r.value.viaInference <==> load.InferenceLoaded?)
  {
    match load
    case InferenceLoaded => Ok(MusicGenerator(true))
    case ManualLoaded => Ok(MusicGenerator(false))
    case LoadFailed(m) => Err(m)
  }

  /** The prompt `MusicGenerator.generate` builds; the mood and style lines only when non-empty. */
  function MusicPrompt(genre: string, mood: string, description: string, lyrics: string): (r: string)
    ensures StartsWith(r, "Genre: " + genre)
    ensures mood == "" && description == "" ==> r == "Genre: " + genre + "\nLyrics: " + lyrics
    ensures mood != "" && description == "" ==> r == "Genre: " + genre + "\nMood: " + mood + "\nLyrics: " + lyrics
    ensures mood == "" && description != "" ==> r == "Genre: " + genre + "\nStyle: " + description + "\nLyrics: " + lyrics
    ensures mood != "" && description != "" ==>
              r == "Genre: " + genre + "\nMood: " + mood + "\nStyle: " + description + "\nLyrics: " + lyrics
  {
    var head := "Genre: " + genre;
    var withMood := if mood != "" then head + "\nMood: " + mood else head;
    var withStyle := if description != "" then withMood + "\nStyle: " + description else withMood;
    assert StartsWith(withStyle, head) by {
      assert withMood[..|head|] == head;
      assert withStyle[..|withMood|] == withMood;
    }
    assert (withStyle + "\nLyrics: " + lyrics)[..|withStyle|] == withStyle;
    withStyle + "\nLyrics: " + lyrics
  }

  /** What the music model is asked for: the prompt and the duration in seconds (-1.0: automatic). */
  datatype MusicRequest = MusicRequest(prompt: string, duration: real)

  /** What the music model produced: samples or the path of a file it wrote. */
  datatype AudioData = Samples | AudioPath(path: string)

  /**
   * The music model's reply: a dict whose `file` and `duration` entries may be missing, or the
   * audio alone.
   */
  datatype MusicReply = Dict(file: Option<AudioData>, duration: Option<real>) | Bare(audio: AudioData)

  type MusicModel = MusicRequest -> Result<MusicReply>

  /** `MusicGenerator.generate`: only the inference path produces audio. */
  function MusicGenerate(g: MusicGenerator, lyrics: string, genre: string, mood: string, duration: real,
                         description: string, model: MusicModel): (r: Result<MusicReply>)
    ensures g.viaInference ==> r == model(MusicRequest(MusicPrompt(genre, mood, description, lyrics), duration))
    ensures !g.viaInference ==> r == Err("Manual generation not yet implemented")
  {
    if g.viaInference then model(MusicRequest(MusicPrompt(genre, mood, description, lyrics), duration))
    else Err("Manual generation not yet implemented")
  }

  /**
   * `get_lyrics_generator` as written: the cached generator is reused whenever one exists and
   * no argument is truthy; otherwise a new one is constructed (and, if that raises, the cache
   * keeps the old one).
   */
  function CachedLyricsGenerator(cached: Option<LyricsGenerator>, settings: Settings, apiKey: Option<string>,
                                 provider: Option<string>, baseUrl: Option<string>, model: Option<string>,
                                 localLoad: Option<string>): (r: Result<LyricsGenerator>)
    ensures cached.Some? && !Truthy(apiKey) && !Truthy(provider) && !Truthy(baseUrl) && !Truthy(model)
            ==> r == Ok(cached.value)
    ensures !(cached.Some? && !Truthy(apiKey) && !Truthy(provider) && !Truthy(baseUrl) && !Truthy(model))
            ==> r == NewLyricsGenerator(settings, apiKey, provider, baseUrl, model, localLoad)
  {
    if cached.None? || Truthy(apiKey) || Truthy(provider) || Truthy(baseUrl) || Truthy(model) then
      NewLyricsGenerator(settings, apiKey, provider, baseUrl, model, localLoad)
    else Ok(cached.value)
  }

  /**
   * A call without a key after a call with a user's own key gets the generator holding that
   * user's key, not the one the settings give.
   */
  lemma CachedGeneratorKeepsOtherUsersKey()
    ensures var settings := Settings("openai", Some("site-key"), None, "https://api.cometapi.com/v1", 3, false);
            var first := CachedLyricsGenerator(None, settings, Some("user-key"), None, None, None, None);
            first.Ok?
            && CachedLyricsGenerator(Some(first.value), settings, None, None, None, None, None).value.apiKey == Some("user-key")
            && LyricsConfig(settings, None, None, None, None).apiKey == Some("site-key")
  {
  }

  /**
   * `get_lyrics_generator` keyed by configuration: the cached generator is reused only when it
   * is the one the arguments describe.
   */
  function CachedLyricsGeneratorByConfig(cached: Option<LyricsGenerator>, settings: Settings, apiKey: Option<string>,
                                         provider: Option<string>, baseUrl: Option<string>, model: Option<string>,
                                         localLoad: Option<string>): (r: Result<LyricsGenerator>)
    requires cached.Some? ==> Constructible(cached.value)
    ensures r.Ok? ==> r.value == LyricsConfig(settings, apiKey, provider, baseUrl, model) && Constructible(r.value)
    ensures r.Err? ==> r == NewLyricsGenerator(settings, apiKey, provider, baseUrl, model, localLoad)
    ensures NewLyricsGenerator(settings, apiKey, provider, baseUrl, model, localLoad).Ok? ==>
              r == NewLyricsGenerator(settings, apiKey, provider, baseUrl, model, localLoad)
  {
    if cached == Some(LyricsConfig(settings, apiKey, provider, baseUrl, model)) then Ok(cached.value)
    else NewLyricsGenerator(settings, apiKey, provider, baseUrl, model, localLoad)
  }

  /** The module globals `_lyrics_generator` and `_music_generator`. */
  class GeneratorCache {
    var lyricsGenerator: Option<LyricsGenerator>
    var musicGenerator: Option<MusicGenerator>

    ghost predicate Valid()
      reads this
    {
      lyricsGenerator.Some? ==> Constructible(lyricsGenerator.value)
    }

    constructor ()
      ensures Valid() && lyricsGenerator == None && musicGenerator == None
    {
      lyricsGenerator := None;
      musicGenerator := None;
    }

    /** `get_lyrics_generator`, with the cache keyed by the generator's configuration. */
    method GetLyricsGenerator(settings: Settings, apiKey: Option<string>, provider: Option<string>,
                              baseUrl: Option<string>, model: Option<string>, localLoad: Option<string>)
      returns (r: Result<LyricsGenerator>)
      requires Valid()
      modifies this
      ensures Valid()
      ensures r == CachedLyricsGeneratorByConfig(old(lyricsGenerator), settings, apiKey, provider, baseUrl, model, localLoad)
      ensures lyricsGenerator == if r.Ok? then Some(r.value) else old(lyricsGenerator)
      ensures musicGenerator == old(musicGenerator)
    {
      r := CachedLyricsGeneratorByConfig(lyricsGenerator, settings, apiKey, provider, baseUrl, model, localLoad);
      if r.Ok? {
        lyricsGenerator := Some(r.value);
      }
    }

    /** `get_music_generator`: the model is loaded at most once, on the first successful call. */
    method GetMusicGenerator(load: MusicLoad) returns (r: Result<MusicGenerator>)
      requires Valid()
      modifies this
      ensures Valid()
      ensures old(musicGenerator).Some? ==> r == Ok(old(musicGenerator).value) && musicGenerator == old(musicGenerator)
      ensures old(musicGenerator).None? ==>
                (r == NewMusicGenerator(load) && musicGenerator == (if r.Ok? then Some(r.value) else None))
      ensures lyricsGenerator == old(lyricsGenerator)
    {
      if musicGenerator.None? {
        r := NewMusicGenerator(load);
        if r.Ok? {
          musicGenerator := Some(r.value);
        }
      } else {
        r := Ok(musicGenerator.value);
      }
    }
  }
}
