/**
 * `executeGraphQL`: classifies the raw query text by ordered, case-sensitive
 * substring tests (not a grammar), resolves the chat message, and wraps
 * every outcome in a response envelope.
 */
module Executor {
  import opened Wrappers
  import opened Text
  import opened MessagePattern
  import opened Resolvers

  /** The operations the dispatcher recognises. */
  datatype Operation = GetGreeting | GetMCPData | ChatWithAI

  /** A classification rule: every marker must occur in the text. */
  datatype Rule = Rule(markers: seq<string>, operation: Operation)

  /** The classification table, tried top-down; the first rule that matches wins. */
  const Rules: seq<Rule> := [
    Rule(["query", "GetGreeting"], GetGreeting),
    Rule(["query", "GetMCPData"], GetMCPData),
    Rule(["mutation", "chatWithAI"], ChatWithAI)
  ]

  predicate RuleMatches(rule: Rule, query: string) {
    forall m :: m in rule.markers ==> Includes(query, m)
  }

  /** The operation of the first rule of `rules` that matches. */
  function FirstRule(rules: seq<Rule>, query: string): (r: Option<Operation>)
    ensures r.None? <==> forall i :: 0 <= i < |rules| ==> !RuleMatches(rules[i], query)
    ensures forall i :: (0 <= i < |rules| && RuleMatches(rules[i], query)
                         && forall j :: 0 <= j < i ==> !RuleMatches(rules[j], query))
                        ==> r == Some(rules[i].operation)
  {
    if rules == [] then None
    else if RuleMatches(rules[0], query) then Some(rules[0].operation)
    else
      var r := FirstRule(rules[1..], query);
      assert forall i :: 1 <= i < |rules| ==> rules[i] == rules[1..][i - 1];
      r
  }

  /**
   * The classification `executeGraphQL` performs: with `query` in the text,
   * `GetGreeting` and then `GetMCPData`; otherwise, with `mutation` in the
   * text, `chatWithAI`; otherwise nothing. An earlier rule wins even when
   * the markers of a later one occur as well.
   */
  function Classify(query: string): (r: Option<Operation>)
    ensures Includes(query, "query") && Includes(query, "GetGreeting")
      ==> r == Some(GetGreeting)
    ensures Includes(query, "query") && !Includes(query, "GetGreeting") && Includes(query, "GetMCPData")
      ==> r == Some(GetMCPData)
    ensures !(Includes(query, "query") && (Includes(query, "GetGreeting") || Includes(query, "GetMCPData")))
      && Includes(query, "mutation") && Includes(query, "chatWithAI")
      ==> r == Some(ChatWithAI)
    ensures !(Includes(query, "query") && (Includes(query, "GetGreeting") || Includes(query, "GetMCPData")))
      && !(Includes(query, "mutation") && Includes(query, "chatWithAI"))
      ==> r == None
  {
    assert RuleMatches(Rules[0], query) <==> Includes(query, "query") && Includes(query, "GetGreeting") by {
      assert Rules[0].markers == ["query", "GetGreeting"];
    }
    assert RuleMatches(Rules[1], query) <==> Includes(query, "query") && Includes(query, "GetMCPData") by {
      assert Rules[1].markers == ["query", "GetMCPData"];
    }
    assert RuleMatches(Rules[2], query) <==> Includes(query, "mutation") && Includes(query, "chatWithAI") by {
      assert Rules[2].markers == ["mutation", "chatWithAI"];
    }
    FirstRule(Rules, query)
  }

  /** The `variables` of the request: argument names to string values. */
  type Variables = map<string, string>

  /** `variables.message`: undefined when the key is absent. */
  function GivenMessage(variables: Variables): Option<string> {
    if "message" in variables then Some(variables["message"]) else None
  }

  /**
   * The message the chat mutation is called with: `variables.message` when
   * it is truthy; otherwise the capture of the first inline
   * `message: "..."` literal in the text; otherwise `variables.message`
   * as it was (undefined, or the empty string).
   */
  function ResolveMessage(variables: Variables, query: string): (r: Option<string>)
    ensures Truthy(GivenMessage(variables)) ==> r == Some(variables["message"])
    ensures !Truthy(GivenMessage(variables)) && FirstMatch(query).Some? ==>
      r.Some? && exists p: nat :: LeftmostFrom(query, 0, Match(p, r.value))
    ensures !Truthy(GivenMessage(variables)) && FirstMatch(query).None? ==>
      r == GivenMessage(variables) && forall p: nat, lit: string :: !MatchesAt(query, p, lit)
  {
    var given := GivenMessage(variables);
    FirstMatchCorrect(query);
    if Truthy(given) then given
    else
      match FirstMatch(query)
      case Some(m) => Some(m.capture)
      case None => given
  }

  /** One entry of the `errors` list. */
  datatype GraphQLError = GraphQLError(message: string)

  /** The `data` object of each operation. */
  datatype Data =
    | GreetingData(greeting: string, timestamp: string)
    | MCPData(mcpWeather: Option<Weather>, mcpNews: Option<News>)
    | ChatData(chatWithAI: ChatResult)

  /** The response envelope: exactly one of `data` and `errors`. */
  datatype Envelope = DataEnvelope(data: Data) | ErrorEnvelope(errors: seq<GraphQLError>)

  const UnsupportedOperation: string := "不支持的 GraphQL 操作"

  /** An envelope together with the provider requests made to produce it. */
  datatype Execution = Execution(envelope: Envelope, calls: seq<ProviderCall>)

  /**
   * `executeGraphQL(query, variables, { env })`, with the clock reading
   * `now` and the provider clients `client`.
   */
  function ExecuteGraphQL(query: string, variables: Variables, env: Env, client: Client, now: string): (x: Execution)
    ensures x.envelope.ErrorEnvelope? <==> Classify(query).None?
    ensures Classify(query) != Some(ChatWithAI) ==> x.calls == []
  {
    match Classify(query)
    case Some(GetGreeting) =>
      Execution(DataEnvelope(GreetingData(Greeting, now)), [])
    case Some(GetMCPData) =>
      Execution(DataEnvelope(MCPData(Some(SampleWeather), Some(SampleNews))), [])
    case Some(ChatWithAI) =>
      var run := Chat(ResolveMessage(variables, query), env, client, now);
      Execution(DataEnvelope(ChatData(run.result)), run.calls)
    case None =>
      Execution(ErrorEnvelope([GraphQLError(UnsupportedOperation)]), [])
  }

  /**
   * First match wins: `query` and `GetGreeting` in the text give the
   * greeting, whatever other markers occur.
   */
  lemma GreetingWins(query: string, variables: Variables, env: Env, client: Client, now: string)
    requires Includes(query, "query") && Includes(query, "GetGreeting")
    ensures ExecuteGraphQL(query, variables, env, client, now)
      == Execution(DataEnvelope(GreetingData(Greeting, now)), [])
  {
  }

  /**
   * `query` and `GetMCPData` without `GetGreeting` give the fixed weather
   * and news, both present.
   */
  lemma McpData(query: string, variables: Variables, env: Env, client: Client, now: string)
    requires Includes(query, "query") && !Includes(query, "GetGreeting") && Includes(query, "GetMCPData")
    ensures var x := ExecuteGraphQL(query, variables, env, client, now);
      x.envelope == DataEnvelope(MCPData(Some(Weather(22.5, "晴朗", "北京")),
        Some(News("Web3 技术发展迅速", "Cloudflare Workers 和边缘计算正在改变 Web 开发模式"))))
      && x.calls == []
  {
  }

  /**
   * The chat branch is taken exactly when `mutation` and `chatWithAI` occur
   * and no query rule matched; its envelope is always `data.chatWithAI`,
   * never `errors`, holding the chat result for the resolved message.
   */
  lemma ChatBranch(query: string, variables: Variables, env: Env, client: Client, now: string)
    ensures var x := ExecuteGraphQL(query, variables, env, client, now);
      (x.envelope.DataEnvelope? && x.envelope.data.ChatData?) <==>
        (!(Includes(query, "query") && (Includes(query, "GetGreeting") || Includes(query, "GetMCPData")))
         && Includes(query, "mutation") && Includes(query, "chatWithAI"))
    ensures var x := ExecuteGraphQL(query, variables, env, client, now);
      Classify(query) == Some(ChatWithAI) ==>
        var run := Chat(ResolveMessage(variables, query), env, client, now);
        x == Execution(DataEnvelope(ChatData(run.result)), run.calls)
  {
  }

  /**
   * Unsupported operation: text matching no rule gives exactly one error,
   * with the fixed message, and no data.
   */
  lemma Unsupported(query: string, variables: Variables, env: Env, client: Client, now: string)
    requires !(Includes(query, "query") && (Includes(query, "GetGreeting") || Includes(query, "GetMCPData")))
    requires !(Includes(query, "mutation") && Includes(query, "chatWithAI"))
    ensures ExecuteGraphQL(query, variables, env, client, now)
      == Execution(ErrorEnvelope([GraphQLError("不支持的 GraphQL 操作")]), [])
  {
  }

  /**
   * Repeating a greeting or MCP query gives the same result whatever the
   * variables, credentials and providers; only the greeting's timestamp
   * follows the clock.
   */
  lemma QueryResultsStable(query: string, v1: Variables, v2: Variables, e1: Env, e2: Env,
                           c1: Client, c2: Client, t1: string, t2: string)
    requires Classify(query) == Some(GetGreeting) || Classify(query) == Some(GetMCPData)
    ensures Classify(query) == Some(GetMCPData) ==>
      ExecuteGraphQL(query, v1, e1, c1, t1) == ExecuteGraphQL(query, v2, e2, c2, t2)
    ensures Classify(query) == Some(GetGreeting) ==>
      ExecuteGraphQL(query, v1, e1, c1, t1).envelope.data.greeting
        == ExecuteGraphQL(query, v2, e2, c2, t2).envelope.data.greeting
  {
  }

  /**
   * Structured argument missing, inline literal present: a chat mutation
   * whose variables hold no truthy `message` takes the literal of the first
   * `message: "..."` in the text (no `:` before it); with no credentials the
   * mock reply echoes it, inside a `data` envelope.
   */
  lemma InlineMessageDispatch(pre: string, ws: string, lit: string, post: string,
                              variables: Variables, client: Client, now: string)
    requires ':' !in pre
    requires forall t :: 0 <= t < |ws| ==> IsRegExpSpace(ws[t])
    requires '"' !in lit
    requires !Truthy(GivenMessage(variables))
    requires Classify(pre + Keyword + ws + "\"" + lit + "\"" + post) == Some(ChatWithAI)
    ensures var query := pre + Keyword + ws + "\"" + lit + "\"" + post;
      ExecuteGraphQL(query, variables, Env(None, None), client, now)
        == Execution(DataEnvelope(ChatData(ChatResult(MockResponse(Some(lit)), LabelMock, now))), [])
  {
    InlineLiteralRecovered(pre, ws, lit, post);
  }
}
