/**
 * The model client interface and `run_agent`: the request sent to a
 * generative model, the deterministic mock client (`MockModels`), and the
 * agent invocation that picks structured or free-text output by the
 * presence of a schema.
 */
module Agent {
  import opened Wrappers
  import opened Plan

  /** A value in the request `config` dictionary. */
  datatype ConfigValue = MimeType(mime: string) | SchemaValue(schema: Schema)

  type Config = map<string, ConfigValue>

  const MimeKey: string := "response_mime_type"
  const SchemaKey: string := "response_schema"
  const JsonMime: string := "application/json"

  datatype Part = Part(text: string)
  datatype Content = Content(role: string, parts: seq<Part>)

  /** The keyword arguments of `generate_content`: model name, contents, config. */
  datatype Request = Request(model: string, contents: seq<Content>, config: Config)

  /** A model response: raw text and, in structured mode, the parsed plan (`None` when absent). */
  datatype Response = Response(text: string, parsed: Option<PlanningResult>)

  /** Any error a live provider call raises; it propagates unchanged. */
  datatype ProviderError = ProviderError(detail: string)

  /** A live provider's `generate_content`, a foreign library call modelled as a function. */
  type Provider = Request -> Result<Response, ProviderError>

  /** The client in use: the mock, or a live provider. */
  datatype Client = MockClient | LiveClient(generate: Provider)

  const MockPlanText: string := "[MOCK OUTPUT: Structured Plan Generated]"
  const MockFinalText: string := "[MOCK OUTPUT: Final Recipe Text]"

  /**
   * `MockModels.generate_content`: the fixed plan, with its placeholder
   * text, exactly when the config asks for a response schema; otherwise the
   * fixed final-recipe placeholder and no parsed value.
   */
  function MockGenerate(req: Request): (r: Response)
    ensures r.parsed.Some? <==> SchemaKey in req.config
    ensures r.parsed.Some? ==> r.parsed.value == MockData() && r.text == MockPlanText
    ensures r.parsed.None? ==> r.text == MockFinalText
  {
    if SchemaKey in req.config then Response(MockPlanText, Some(MockData()))
    else Response(MockFinalText, None)
  }

  /** `client.models.generate_content(...)`; the mock never fails. */
  function Generate(client: Client, req: Request): (r: Result<Response, ProviderError>)
    ensures client.MockClient? ==> r == Success(MockGenerate(req))
    ensures client.LiveClient? ==> r == client.generate(req)
  {
    match client
    case MockClient => Success(MockGenerate(req))
    case LiveClient(g) => g(req)
  }

  /**
   * The request config: JSON mime type and the schema when a schema is
   * given, an empty dictionary otherwise.
   */
  function BuildConfig(schema: Option<Schema>): (c: Config)
    ensures SchemaKey in c <==> schema.Some?
    ensures schema.None? ==> c == map[]
    ensures schema.Some? ==> c.Keys == {MimeKey, SchemaKey}
                             && c[MimeKey] == MimeType(JsonMime)
                             && c[SchemaKey] == SchemaValue(schema.value)
  {
    match schema
    case None => map[]
    case Some(s) => map[MimeKey := MimeType(JsonMime), SchemaKey := SchemaValue(s)]
  }

  const EnvelopeOpen: string := "SYSTEM ROLE ("
  const PromptMarker: string := "\n\nUSER PROMPT:\n"

  /** Everything of the envelope text that comes before the user prompt. */
  function EnvelopeHeader(agentName: string, systemPrompt: string): string {
    EnvelopeOpen + agentName + "): " + systemPrompt + PromptMarker
  }

  /** The single message text: agent name, system prompt, then the user prompt. */
  function Envelope(agentName: string, systemPrompt: string, prompt: string): (text: string)
    ensures EnvelopeOpen + agentName + "): " + systemPrompt + PromptMarker <= text
    ensures |EnvelopeHeader(agentName, systemPrompt)| <= |text|
    ensures text[|EnvelopeHeader(agentName, systemPrompt)|..] == prompt
  {
    var h := EnvelopeHeader(agentName, systemPrompt);
    assert h == (EnvelopeOpen + agentName) + ("): " + systemPrompt + PromptMarker);
    h + prompt
  }

  /** Two envelopes with the same agent and system prompt are equal only for the same user prompt. */
  lemma EnvelopeDeterminesPrompt(agentName: string, systemPrompt: string, p1: string, p2: string)
    requires Envelope(agentName, systemPrompt, p1) == Envelope(agentName, systemPrompt, p2)
    ensures p1 == p2
  {
  }

  /** What `run_agent` hands back: the parsed value in structured mode, the text otherwise. */
  datatype AgentOutput = Structured(parsed: Option<PlanningResult>) | Text(text: string)

  /** One agent call: the request it sent and what it returned or raised. */
  datatype Invocation = Invocation(request: Request, output: Result<AgentOutput, ProviderError>)

  /**
   * The request `run_agent` sends: the configured model, exactly one
   * user-role message with one text part holding the envelope, and the
   * config for the schema.
   */
  function AgentRequest(model: string, agentName: string, systemPrompt: string, prompt: string,
                        schema: Option<Schema>): (req: Request)
    ensures req.model == model
    ensures |req.contents| == 1 && req.contents[0].role == "user"
    ensures req.contents[0].parts == [Part(Envelope(agentName, systemPrompt, prompt))]
    ensures req.config == BuildConfig(schema)
  {
    Request(model, [Content("user", [Part(Envelope(agentName, systemPrompt, prompt))])], BuildConfig(schema))
  }

  /**
   * `run_agent`: one user-role message carrying the envelope, structured
   * mode exactly when a schema is given, and the response's `parsed` or
   * `text` accordingly; a provider error propagates unchanged.
   */
  function RunAgent(client: Client, model: string, agentName: string, systemPrompt: string, prompt: string,
                    schema: Option<Schema>): (inv: Invocation)
    ensures inv.request.model == model
    ensures |inv.request.contents| == 1 && inv.request.contents[0].role == "user"
    ensures inv.request.contents[0].parts == [Part(Envelope(agentName, systemPrompt, prompt))]
    ensures inv.request.config == BuildConfig(schema)
    ensures var g := Generate(client, inv.request);
      && (inv.output.Failure? <==> g.Failure?)
      && (g.Failure? ==> inv.output.error == g.error)
      && (g.Success? && schema.Some? ==> inv.output == Success(Structured(g.value.parsed)))
      && (g.Success? && schema.None? ==> inv.output == Success(Text(g.value.text)))
  {
    var req := AgentRequest(model, agentName, systemPrompt, prompt, schema);
    var out :=
      match Generate(client, req)
      case Failure(e) => Failure(e)
      case Success(resp) => Success(if schema.Some? then Structured(resp.parsed) else Text(resp.text));
    Invocation(req, out)
  }

  /**
   * Against the mock, a structured call always yields the mock plan and a
   * free-text call always yields the final-recipe placeholder.
   */
  lemma MockAgentAnswers(model: string, agentName: string, systemPrompt: string, prompt: string,
                         schema: Option<Schema>)
    ensures var out := RunAgent(MockClient, model, agentName, systemPrompt, prompt, schema).output;
      && (schema.Some? ==> out == Success(Structured(Some(MockData()))))
      && (schema.None? ==> out == Success(Text(MockFinalText)))
  {
  }
}
