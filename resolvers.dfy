/**
 * The resolvers: the fixed query results and the chat mutation with its
 * provider fallback chain and error containment.
 */
module Resolvers {
  import opened Wrappers
  import opened Text

  /** `resolvers.Query.greeting`. */
  const Greeting: string := "✅ Cloudflare Worker 连接成功！"

  datatype Weather = Weather(temperature: real, condition: string, city: string)
  datatype News = News(title: string, summary: string)

  /** `resolvers.Query.mcpWeather`: fixed sample data. */
  const SampleWeather: Weather := Weather(22.5, "晴朗", "北京")

  /** `resolvers.Query.mcpNews`: fixed sample data. */
  const SampleNews: News := News("Web3 技术发展迅速", "Cloudflare Workers 和边缘计算正在改变 Web 开发模式")

  /** The credentials read from the environment; either may be unset. */
  datatype Env = Env(deepSeekApiKey: Option<string>, openAiApiKey: Option<string>)

  /** JavaScript truthiness of an optional string: set and not empty. */
  predicate Truthy(v: Option<string>) {
    v.Some? && v.value != ""
  }

  /** The external chat-completion services. */
  datatype Provider = DeepSeek | OpenAI

  /** The values the `model` field of a chat result can take. */
  datatype ModelLabel = LabelDeepSeek | LabelOpenAI | LabelMock | LabelError {
    /** The string the label is serialised as. */
    function Name(): (n: string)
      ensures n in ["DeepSeek", "OpenAI", "Mock", "Error"]
    {
      match this
      case LabelDeepSeek => "DeepSeek"
      case LabelOpenAI => "OpenAI"
      case LabelMock => "Mock"
      case LabelError => "Error"
    }

    /** Distinct labels serialise to distinct strings. */
    lemma NamesDistinct(other: ModelLabel)
      ensures Name() == other.Name() ==> this == other
    {
    }
  }

  /** What one provider call ends with: the reply text, or the thrown error's message. */
  datatype ProviderOutcome = Ok(text: string) | Fail(message: string)

  /**
   * The provider clients (`requestDeepSeekAPI`, `requestOpenAI`): given the
   * provider, the message (possibly undefined) and the API key, the outcome
   * of the single request.
   */
  type Client = (Provider, Option<string>, string) -> ProviderOutcome

  /** One request sent to a provider. */
  datatype ProviderCall = ProviderCall(provider: Provider, message: Option<string>, apiKey: string)

  /** The `ChatResponse` object. */
  datatype ChatResult = ChatResult(response: string, model: ModelLabel, timestamp: string)

  /** A chat result together with the provider requests made to produce it. */
  datatype ChatRun = ChatRun(result: ChatResult, calls: seq<ProviderCall>)

  /** The fallback chain, in priority order. */
  const ProviderChain: seq<Provider> := [DeepSeek, OpenAI]

  /** The credential a provider is called with. */
  function KeyOf(env: Env, p: Provider): Option<string> {
    match p
    case DeepSeek => env.deepSeekApiKey
    case OpenAI => env.openAiApiKey
  }

  /** The label a successful call of a provider is reported with. */
  function LabelOf(p: Provider): ModelLabel {
    match p
    case DeepSeek => LabelDeepSeek
    case OpenAI => LabelOpenAI
  }

  /** The first provider of `chain` whose credential is truthy. */
  function FirstAvailable(chain: seq<Provider>, env: Env): (r: Option<Provider>)
    ensures r.Some? ==> r.value in chain && Truthy(KeyOf(env, r.value))
    ensures r.None? <==> forall p :: p in chain ==> !Truthy(KeyOf(env, p))
    ensures r.Some? ==> exists k :: (0 <= k < |chain| && chain[k] == r.value
                                     && forall j :: 0 <= j < k ==> !Truthy(KeyOf(env, chain[j])))
  {
    if chain == [] then None
    else if Truthy(KeyOf(env, chain[0])) then Some(chain[0])
    else
      var r := FirstAvailable(chain[1..], env);
      assert forall i :: 1 <= i < |chain| ==> chain[i] == chain[1..][i - 1];
      r
  }

  /**
   * The provider the chat mutation uses: DeepSeek whenever its key is set,
   * even if an OpenAI key is set too; otherwise OpenAI if its key is set;
   * otherwise none.
   */
  function SelectProvider(env: Env): (r: Option<Provider>)
    ensures Truthy(env.deepSeekApiKey) ==> r == Some(DeepSeek)
    ensures !Truthy(env.deepSeekApiKey) && Truthy(env.openAiApiKey) ==> r == Some(OpenAI)
    ensures !Truthy(env.deepSeekApiKey) && !Truthy(env.openAiApiKey) ==> r == None
  {
    assert DeepSeek in ProviderChain && OpenAI in ProviderChain;
    FirstAvailable(ProviderChain, env)
  }

  /** `${message}` in a template literal: an undefined message prints as "undefined". */
  function Render(message: Option<string>): string {
    message.GetOr("undefined")
  }

  const MockIntro: string := "这是一个模拟响应。你说: "
  const MockOutro: string := "\n\n请在 wrangler.toml 中配置 DEEPSEEK_API_KEY 或 OPENAI_API_KEY 以启用真实的 AI 对话。"

  /** The templated echo given when no credential is configured. */
  function MockResponse(message: Option<string>): string {
    MockIntro + "\"" + Render(message) + "\"" + MockOutro
  }

  /** The text a contained provider failure is reported with. */
  const FailurePrefix: string := "AI 调用失败: "

  /**
   * `resolvers.Mutation.chatWithAI`. With a provider selected, exactly one
   * request goes to it with its key; its reply becomes the response under
   * its label, and its failure becomes data: the failure prefix and the
   * error message under the label "Error". Without a credential no request
   * is made and the response is the templated echo under "Mock".
   */
  function Chat(message: Option<string>, env: Env, client: Client, now: string): (run: ChatRun)
    ensures |run.calls| <= 1
    ensures run.result.timestamp == now
    ensures run.calls == [] <==> run.result.model == LabelMock
    ensures run.calls == [] ==> run.result.response == MockResponse(message)
    ensures forall i :: 0 <= i < |run.calls| ==>
      var c := run.calls[i];
      Truthy(KeyOf(env, c.provider)) && c.apiKey == KeyOf(env, c.provider).value && c.message == message
      && run.result == match client(c.provider, message, c.apiKey)
                       case Ok(text) => ChatResult(text, LabelOf(c.provider), now)
                       case Fail(m) => ChatResult(FailurePrefix + m, LabelError, now)
  {
    match SelectProvider(env)
    case None =>
      ChatRun(ChatResult(MockResponse(message), LabelMock, now), [])
    case Some(p) =>
      var key := KeyOf(env, p).value;
      var result :=
        match client(p, message, key)
        case Ok(text) => ChatResult(text, LabelOf(p), now)
        case Fail(m) => ChatResult(FailurePrefix + m, LabelError, now);
      ChatRun(result, [ProviderCall(p, message, key)])
  }

  /**
   * Provider priority: a DeepSeek key means the one request goes to
   * DeepSeek, whatever the OpenAI key; with only an OpenAI key it goes to
   * OpenAI; with neither, nothing is called.
   */
  lemma ChatProviderPriority(message: Option<string>, env: Env, client: Client, now: string)
    ensures var run := Chat(message, env, client, now);
      (Truthy(env.deepSeekApiKey) ==>
         run.calls == [ProviderCall(DeepSeek, message, env.deepSeekApiKey.value)])
      && (!Truthy(env.deepSeekApiKey) && Truthy(env.openAiApiKey) ==>
         run.calls == [ProviderCall(OpenAI, message, env.openAiApiKey.value)])
      && (!Truthy(env.deepSeekApiKey) && !Truthy(env.openAiApiKey) ==> run.calls == [])
  {
  }

  /**
   * Mock mode: with no credential the label is "Mock" and the response
   * includes the message, quoted.
   */
  lemma MockEchoesMessage(message: Option<string>, env: Env, client: Client, now: string)
    requires !Truthy(env.deepSeekApiKey) && !Truthy(env.openAiApiKey)
    ensures Chat(message, env, client, now).result.model == LabelMock
    ensures Includes(Chat(message, env, client, now).result.response, "\"" + Render(message) + "\"")
  {
    IncludesInfix(MockIntro, "\"" + Render(message) + "\"", MockOutro);
    assert MockResponse(message) == MockIntro + ("\"" + Render(message) + "\"") + MockOutro;
  }

  /**
   * Error containment: the label is "Error" exactly when the one provider
   * request failed, and then the response is the failure prefix followed by
   * the error's message.
   */
  lemma ChatContainsFailure(message: Option<string>, env: Env, client: Client, now: string)
    ensures var run := Chat(message, env, client, now);
      run.result.model == LabelError <==>
        (|run.calls| == 1 && client(run.calls[0].provider, message, run.calls[0].apiKey).Fail?)
    ensures var run := Chat(message, env, client, now);
      run.result.model == LabelError ==>
        run.result.response == FailurePrefix + client(run.calls[0].provider, message, run.calls[0].apiKey).message
  {
  }
}
