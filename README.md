# GraphQL dispatcher of the Cloudflare Worker

A Dafny model of the request dispatcher in `worker/index.js`. The Worker serves a
GraphQL-shaped endpoint. It does not parse GraphQL. It picks an operation by
ordered, case-sensitive substring tests on the raw query text. The operations are
a greeting, fixed "MCP" sample data, and a chat mutation. The chat mutation calls
DeepSeek when its key is set, otherwise OpenAI when its key is set, and otherwise
answers with a mock echo.
A provider failure is reported as data. Everything is pure, so the model is made of
functions, datatypes and lemmas:

- `Text`: `String.prototype.includes` as a scanner, proved equal to its declarative
  definition. Also the ECMAScript `\s` character class.
- `MessagePattern`: the leftmost match of `/message:\s*"([^"]*)"/` and its capture.
  A declarative `MatchShape` predicate describes a match. The scanner is proved to
  find exactly the leftmost match, or none exactly when there is none.
- `Resolvers`: the fixed query results, the provider chain as a table, and
  `chatWithAI`. The chat result records which provider requests were made.
- `Executor`: the classification table, message resolution, and `executeGraphQL`.
- `Worker`: `corsHeaders` and the routing of `fetch`.

The environment is passed in explicitly:
- the credentials (`Env`), with JavaScript truthiness, so an empty key counts as absent;
- the provider clients, as a function from (provider, message, key) to `Ok(text) | Fail(message)`;
- the clock reading (`now`);
- the outcome of reading the body;
- the request method and pathname.

Two behaviours of the code are worth noting. The model follows the code in both:
- The 404 answer (`worker/index.js:272`) carries no cross-origin headers. All other responses do.
- A method other than OPTIONS, GET or POST on `/graphql` (PUT, DELETE, HEAD, …) falls
  through to the `/` check and so gets 404.

## Model

| member | source | states |
|---|---|---|
| `Text.IncludesIff` | worker/index.js:134-135 | the substring test holds exactly when the marker occurs at some index of the text |
| `MessagePattern.SpaceRun` | worker/index.js:167 | greedy `\s*`: the run it measures is all spaces and is followed by a non-space or the end |
| `MessagePattern.SpaceRunExact` | worker/index.js:167 | a run of exactly w spaces followed by a non-space is measured as w |
| `MessagePattern.NextQuote` | worker/index.js:167 | `[^"]*"`: the index found holds `"`, and no `"` lies between the start and it (or the end when none is found) |
| `MessagePattern.MatchAtSound` | worker/index.js:167 | what the anchored matcher captures is a match of the pattern at that index |
| `MessagePattern.MatchAtComplete` | worker/index.js:167 | every match of the pattern at an index is the one the anchored matcher returns, so the capture at an index is unique |
| `MessagePattern.FindFromCorrect` | worker/index.js:167-170 | the search from i returns the leftmost match at or after i, and returns none exactly when no match starts at or after i |
| `MessagePattern.FirstMatchCorrect` | worker/index.js:167-170 | the first match has no `"` in its capture, the text has `message:`, spaces, `"`, capture, `"` at its index, and no match starts earlier; none is found exactly when the text has no match anywhere |
| `MessagePattern.LeftmostUnique` | worker/index.js:167-170 | there is only one leftmost match, so its index and capture are determined by the text |
| `MessagePattern.InlineLiteralRecovered` | worker/index.js:165-170 | for a text with no `:` before `message:`, spaces, `"lit"`, the first match is at that `message:` and captures `lit` |
| `Resolvers.ModelLabel.Name` | worker/index.js:76-87 | the serialisation table of the `model` field (DeepSeek, OpenAI, Mock, Error labels to their strings): every label is written as one of "DeepSeek", "OpenAI", "Mock", "Error" |
| `Resolvers.ModelLabel.NamesDistinct` | worker/index.js:76-87 | distinct labels are written as distinct strings, so the four labels and the four strings correspond one to one |
| `Resolvers.FirstAvailable` | worker/index.js:74-84 | the provider chosen is the first of the chain with a truthy key: it has one and every provider before it lacks one; none is chosen exactly when no provider of the chain has one |
| `Resolvers.SelectProvider` | worker/index.js:74-84 | a DeepSeek key selects DeepSeek regardless of the OpenAI key; only an OpenAI key selects OpenAI; no key selects nothing |
| `Resolvers.Chat` | worker/index.js:66-95 | at most one provider request; none exactly when the label is Mock, with the templated echo; otherwise the request goes to a provider with its truthy key and the message, and its reply or its failure (prefix + message, label Error) is the result; the timestamp is the clock reading |
| `Resolvers.ChatProviderPriority` | worker/index.js:74-84 | the one request goes to DeepSeek with its key when that key is truthy, else to OpenAI when its key is truthy, else no request is made |
| `Resolvers.MockEchoesMessage` | worker/index.js:80-84 | with no credential the label is Mock and the response includes the message between double quotes (`undefined` when there is no message) |
| `Resolvers.ChatContainsFailure` | worker/index.js:73-88 | the label is Error exactly when the single provider request failed, and then the response is `AI 调用失败: ` followed by the failure's message |
| `Executor.FirstRule` | worker/index.js:140-161 | the table yields nothing exactly when no rule matches, and otherwise the operation of the first rule that matches |
| `Executor.Classify` | worker/index.js:134-161 | `query` with `GetGreeting` gives the greeting; `query` with `GetMCPData` and without `GetGreeting` gives MCP data; `mutation` with `chatWithAI` (no query rule matching) gives chat; anything else gives nothing |
| `Executor.ResolveMessage` | worker/index.js:163-171 | a truthy `variables.message` is used unchanged; otherwise the capture of the leftmost inline literal; otherwise `variables.message` as it was (undefined or empty), and then the text has no match |
| `Executor.ExecuteGraphQL` | worker/index.js:132-188 | the envelope is `errors` exactly when classification finds nothing; only the chat branch makes provider requests |
| `Executor.GreetingWins` | worker/index.js:140-149 | `query` and `GetGreeting` give the greeting data with the clock as timestamp, whatever other markers occur, and no provider request |
| `Executor.McpData` | worker/index.js:151-158 | `query` and `GetMCPData` without `GetGreeting` give weather {22.5, 晴朗, 北京} and the fixed news, both present, and no provider request |
| `Executor.ChatBranch` | worker/index.js:161-183 | the envelope is `data.chatWithAI` exactly when `mutation` and `chatWithAI` occur and no query rule matched; it then holds the chat result for the resolved message and its requests |
| `Executor.Unsupported` | worker/index.js:185-187 | text matching no rule gives exactly one error, `不支持的 GraphQL 操作`, no data and no provider request |
| `Executor.QueryResultsStable` | worker/index.js:140-158 | the MCP result does not depend on variables, credentials, providers or clock; the greeting text does not either |
| `Executor.InlineMessageDispatch` | worker/index.js:161-177 | with no truthy `variables.message`, a chat mutation takes the inline literal and, with no credentials, answers the mock echo of it in `data` |
| `Worker.Fetch` | worker/index.js:200-273 | status is 200, 204, 404 or 500; 404 exactly for unrouted requests, then with body `Not Found` and no header set by the handler; every routed response carries all four cross-origin headers |
| `Worker.PreflightFirst` | worker/index.js:204-209 | OPTIONS on any path gives 204, no body and exactly the four cross-origin headers |
| `Worker.GraphQLPost` | worker/index.js:212-238 | POST /graphql gives 200 with the dispatcher's envelope (variables empty when absent), or 500 with a single error carrying the parse failure's message; JSON and cross-origin headers either way |
| `Worker.ProviderFailureIsStill200` | worker/index.js:213-224 | a chat mutation is answered 200 with `data.chatWithAI`; its label is Error exactly when the single provider request failed, and its response is then `AI 调用失败: ` followed by that failure's message |
| `Worker.PlaygroundRoute` | worker/index.js:242-249 | GET /graphql gives 200 with the playground page, HTML and cross-origin headers |
| `Worker.RootRoute` | worker/index.js:253-270 | any method but OPTIONS on `/` gives 200 with the status payload stamped with the clock |
| `Worker.NotFoundHasNoCors` | worker/index.js:272 | the 404 answer carries none of the cross-origin headers |

## Left out

- `requestDeepSeekAPI` and `requestOpenAI`, the network calls through the `openai` SDK, are the client parameter. A reply whose content is null is not distinguished from text.
- `new Date().toISOString()` is the `now` parameter. One request reads the clock once, so one reading is enough.
- The temperature 22.5 is an exact `real`, not a binary float.
- `request.json()`, the destructuring of its result, and `new URL` are inputs. A body that is not JSON, or a `null` body, throws inside the `try` and is given as `Malformed` with the runtime's error message.
- `query` is taken to be a string. A `query` of another JSON type is not modelled: an array has its own `includes`, so it can be classified and answered 200, or throw later at `query.match` and be answered 500; a number or a missing `query` throws at `includes` and is answered 500.
- The runtime's default header is not modelled. The 404 answer is built from a string body with no headers, and the Response constructor then adds `Content-Type: text/plain;charset=UTF-8`. The model states the headers the handler itself sets, which for the 404 are none.
- JSON serialisation (`JSON.stringify`) is not modelled. Bodies are structured values.
- `variables` is modelled as a map to strings. A non-string `variables.message` is not modelled.
- JavaScript strings are UTF-16 code units. Dafny characters are Unicode scalar values. The markers are ASCII, so the substring tests agree. The regex classes `\s` and `[^"]` are applied per scalar value.
- `getPlaygroundHTML` (static HTML and a client script) is the opaque body `PlaygroundPage`.
- The unused `schema` string, the unused `operationName`, and async sequencing are not modelled.
- The React front end (`src/App.jsx`, `src/App.tsx`, `src/main.jsx`) is presentation only and is not part of this model.
