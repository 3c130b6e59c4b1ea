/**
 * `run_recipe_adapter_workflow`: the Planner agent in structured mode, the
 * conversion stage over its plan, then the Stylist agent in free-text mode
 * with the plan's substitutions and the conversion notes in its prompt.
 * Any raised error ends the run; the Python function prints the Stylist's
 * draft, which this model returns instead.
 */
module Workflow {
  import opened Wrappers
  import opened Plan
  import opened Conversions
  import opened Render
  import opened Agent
  import ClientSelection

  const ConceptualModelName: string := "AI_Reasoning_Engine_Flash"
  const PlannerName: string := "Planner_Agent"
  const StylistName: string := "Stylist_Agent"

  // The fixed text of the four prompts, split around the values spliced into them.
  const PlannerSystemHead: string := "You are the expert Recipe Planner, powered by the "
  const PlannerSystemTail: string := ". Your sole job is to identify substitutions to match the target style and output the result in the required JSON schema."
  const PlannerRecipeLabel: string := "\n    ORIGINAL RECIPE: \""
  const PlannerStyleLabel: string := "\"\n    TARGET TRANSFORMATION: \""
  const PlannerTask: string := "\"\n    Analyze the recipe and generate a comprehensive Substitution Map and a list of necessary Unit Conversions.\n    "
  const StylistSystemHead: string := "You are the expert Technical Recipe Stylist, powered by the "
  const StylistSystemMiddle: string := ". Your job is to take the provided context and rewrite the final, well-formatted recipe in the style of '"
  const StylistSystemTail: string := "' cuisine."
  const StylistRecipeLabel: string := "\n    ORIGINAL RECIPE: "
  const StylistMemoryLabel: string := "\n    SUBSTITUTION MAP (CRITICAL MEMORY): "
  const StylistNotesLabel: string := "\n    CONVERSION NOTES: "
  const StylistTask: string := "\n\n    Your task is to rewrite the ORIGINAL RECIPE entirely, applying all substitutions and conversions. Rewrite the instructions to sound authentic for the '"
  const StylistTail: string := "' style.\n    "

  /** The Planner's system prompt: its opening words, the conceptual model's name, then its closing instruction. */
  function PlannerSystemPrompt(): (p: string)
    ensures PlannerSystemHead + ConceptualModelName <= p
    ensures |p| == |PlannerSystemHead + ConceptualModelName| + |PlannerSystemTail|
    ensures p[|p| - |PlannerSystemTail|..] == PlannerSystemTail
  {
    PlannerSystemHead + ConceptualModelName + PlannerSystemTail
  }

  /** The Planner's user prompt: the recipe, then the target style, each quoted after its label. */
  function PlannerPrompt(recipe: string, style: string): (p: string)
    ensures PlannerRecipeLabel + recipe + PlannerStyleLabel + style <= p
    ensures |PlannerTask| <= |p| && p[|p| - |PlannerTask|..] == PlannerTask
    ensures |p| == |PlannerRecipeLabel + recipe + PlannerStyleLabel + style| + |PlannerTask|
  {
    var head := PlannerRecipeLabel + recipe + PlannerStyleLabel + style;
    assert (head + PlannerTask)[|head + PlannerTask| - |PlannerTask|..] == PlannerTask;
    head + PlannerTask
  }

  /** The Stylist's system prompt, naming the target style after the cuisine instruction and closing the quote. */
  function StylistSystemPrompt(style: string): (p: string)
    ensures StylistSystemHead + ConceptualModelName + StylistSystemMiddle + style <= p
    ensures |p| == |StylistSystemHead + ConceptualModelName + StylistSystemMiddle + style| + |StylistSystemTail|
    ensures p[|p| - |StylistSystemTail|..] == StylistSystemTail
  {
    StylistSystemHead + ConceptualModelName + StylistSystemMiddle + style + StylistSystemTail
  }

  /**
   * The Stylist's user prompt: the recipe, the serialised substitution map
   * and the conversion notes, each after its label and in that order, then
   * the task naming the target style.
   */
  function StylistPrompt(recipe: string, substitutions: string, notes: string, style: string): (p: string)
    ensures StylistRecipeLabel + recipe + StylistMemoryLabel + substitutions + StylistNotesLabel + notes <= p
    ensures var tail := StylistTask + style + StylistTail; |tail| <= |p| && p[|p| - |tail|..] == tail
    ensures |p| == |StylistRecipeLabel + recipe + StylistMemoryLabel + substitutions + StylistNotesLabel + notes|
                   + |StylistTask + style + StylistTail|
  {
    var head := StylistRecipeLabel + recipe + StylistMemoryLabel + substitutions + StylistNotesLabel + notes;
    var tail := StylistTask + style + StylistTail;
    assert (head + tail)[|head + tail| - |tail|..] == tail;
    head + tail
  }

  /** The stage at which a run ended, with the error raised there. */
  datatype WorkflowError =
    | PlannerFailed(providerError: ProviderError)
    | NoPlan                                     // `parsed` was None, so reading the plan raises
    | ConversionFailed(conversionError: ConversionError)
    | StylistFailed(stylistError: ProviderError)

  /** A finished run: the requests sent, in order, and the final draft or the error that ended it. */
  datatype Run = Run(calls: seq<Request>, result: Result<string, WorkflowError>)

  /** The Planner's request: structured mode, one message from the Planner carrying the recipe and style. */
  function PlannerRequest(model: string, recipe: string, style: string): (req: Request)
    ensures req.model == model
    ensures req.config == BuildConfig(Some(PlanningResultSchema))
    ensures req.contents == [Content("user", [Part(Envelope(PlannerName, PlannerSystemPrompt(), PlannerPrompt(recipe, style)))])]
  {
    AgentRequest(model, PlannerName, PlannerSystemPrompt(), PlannerPrompt(recipe, style), Some(PlanningResultSchema))
  }

  /**
   * The Stylist's request: free-text mode with an empty config, and one
   * message whose prompt carries the plan's substitutions and the notes of
   * the conversion outcomes.
   */
  function StylistRequest(model: string, rd: Renderer, recipe: string, style: string,
                          plan: PlanningResult, outcomes: seq<Outcome>): (req: Request)
    ensures req.model == model
    ensures req.config == map[]
    ensures req.contents == [Content("user", [Part(Envelope(StylistName, StylistSystemPrompt(style),
              StylistPrompt(recipe, rd.substitutions(plan.substitutionMap), ConversionNotes(rd, outcomes), style)))])]
  {
    var prompt := StylistPrompt(recipe, rd.substitutions(plan.substitutionMap), ConversionNotes(rd, outcomes), style);
    AgentRequest(model, StylistName, StylistSystemPrompt(style), prompt, None)
  }

  /**
   * The Planner stage: a structured call whose parsed plan is the stage's
   * result; a provider error or a missing plan ends the run.
   */
  function PlanningStage(client: Client, model: string, recipe: string, style: string)
    : (r: Result<PlanningResult, WorkflowError>)
    ensures var g := Generate(client, PlannerRequest(model, recipe, style));
      && (r.Success? <==> g.Success? && g.value.parsed.Some?)
      && (r.Success? ==> r.value == g.value.parsed.value)
      && (g.Failure? ==> r == Failure(PlannerFailed(g.error)))
      && (g.Success? && g.value.parsed.None? ==> r == Failure(NoPlan))
  {
    var planner := RunAgent(client, model, PlannerName, PlannerSystemPrompt(), PlannerPrompt(recipe, style),
                            Some(PlanningResultSchema));
    match planner.output
    case Failure(e) => Failure(PlannerFailed(e))
    case Success(out) =>
      match out
      case Structured(parsed) => if parsed.Some? then Success(parsed.value) else Failure(NoPlan)
      case Text(_) => assert false; Failure(NoPlan)
  }

  /** The Stylist stage: a free-text call whose text is the final draft. */
  function StylingStage(client: Client, model: string, rd: Renderer, recipe: string, style: string,
                        plan: PlanningResult, outcomes: seq<Outcome>): (r: Result<string, WorkflowError>)
    ensures var g := Generate(client, StylistRequest(model, rd, recipe, style, plan, outcomes));
      && (r.Success? <==> g.Success?)
      && (r.Success? ==> r.value == g.value.text)
      && (g.Failure? ==> r == Failure(StylistFailed(g.error)))
  {
    var prompt := StylistPrompt(recipe, rd.substitutions(plan.substitutionMap), ConversionNotes(rd, outcomes), style);
    var stylist := RunAgent(client, model, StylistName, StylistSystemPrompt(style), prompt, None);
    match stylist.output
    case Failure(e) => Failure(StylistFailed(e))
    case Success(draft) =>
      match draft
      case Text(text) => Success(text)
      case Structured(_) => assert false; Failure(NoPlan)
  }

  /**
   * One workflow run. The Planner is always called first and with a
   * schema; the Stylist is called second, without a schema, exactly when
   * planning and conversion succeeded, and its prompt carries the plan's
   * substitutions and the conversion notes; a successful run's result is
   * the Stylist's text.
   */
  function AdaptRecipe(client: Client, model: string, rd: Renderer, recipe: string, style: string): (run: Run)
    ensures 1 <= |run.calls| <= 2
    ensures run.calls[0] == PlannerRequest(model, recipe, style)
    ensures SchemaKey in run.calls[0].config
    ensures |run.calls| == 2 ==> SchemaKey !in run.calls[1].config
    ensures |run.calls| == 2 <==> run.result.Success? || run.result.error.StylistFailed?
    ensures |run.calls| == 2 ==>
              var p := Generate(client, run.calls[0]);
              && p.Success? && p.value.parsed.Some?
              && ConversionStage(p.value.parsed.value.conversionList).Success?
              && run.calls[1] == StylistRequest(model, rd, recipe, style, p.value.parsed.value,
                                                ConversionStage(p.value.parsed.value.conversionList).value)
    ensures run.result.Success? ==>
              && Generate(client, run.calls[1]).Success?
              && run.result.value == Generate(client, run.calls[1]).value.text
    ensures var p := Generate(client, PlannerRequest(model, recipe, style));
      && (p.Failure? ==> run == Run([PlannerRequest(model, recipe, style)], Failure(PlannerFailed(p.error))))
      && (p.Success? && p.value.parsed.None? ==>
            run == Run([PlannerRequest(model, recipe, style)], Failure(NoPlan)))
      && (p.Success? && p.value.parsed.Some? ==>
            var plan := p.value.parsed.value;
            var c := ConversionStage(plan.conversionList);
            && (c.Failure? ==> run == Run([PlannerRequest(model, recipe, style)], Failure(ConversionFailed(c.error))))
            && (c.Success? ==>
                  && run.calls == [PlannerRequest(model, recipe, style),
                                   StylistRequest(model, rd, recipe, style, plan, c.value)]
                  && run.result == StylingStage(client, model, rd, recipe, style, plan, c.value)))
  {
    var plannerRequest := PlannerRequest(model, recipe, style);
    match PlanningStage(client, model, recipe, style)
    case Failure(e) => Run([plannerRequest], Failure(e))
    case Success(plan) =>
      match ConversionStage(plan.conversionList)
      case Failure(e) => Run([plannerRequest], Failure(ConversionFailed(e)))
      case Success(outcomes) =>
        Run([plannerRequest, StylistRequest(model, rd, recipe, style, plan, outcomes)],
            StylingStage(client, model, rd, recipe, style, plan, outcomes))
  }

  /**
   * With the mock client the run always completes: two calls, the plan's
   * substitutions and the single 240-gram note in the Stylist's prompt, and
   * the final-recipe placeholder as the result, never the Planner's text.
   */
  lemma MockRunScenario(model: string, rd: Renderer, recipe: string, style: string)
    ensures var run := AdaptRecipe(MockClient, model, rd, recipe, style);
      && |run.calls| == 2
      && run.result == Success(MockFinalText)
      && run.result.value != MockPlanText
      && run.calls[1] == AgentRequest(model, StylistName, StylistSystemPrompt(style),
           StylistPrompt(recipe, rd.substitutions(MockData().substitutionMap),
                         NoteLine(rd, Outcome(2.0, "cups", 240.0, Str("grams"))), style), None)
  {
    MockConversionYields240();
    var notes := NoteLines(rd, [Outcome(2.0, "cups", 240.0, Str("grams"))]);
    assert |notes| == 1;
  }

  /**
   * From start-up to finished run: with no key, an empty key, or a key the
   * provider rejects, the workflow runs on the mock and ends with the
   * final-recipe placeholder.
   */
  lemma MockFallbackCompletes(apiKey: Option<string>, connect: string -> Result<Provider, ClientSelection.InitError>,
                              rd: Renderer, recipe: string, style: string)
    requires apiKey.None? || apiKey.value == [] || connect(apiKey.value).Failure?
    ensures var sel := ClientSelection.SelectClient(apiKey, connect);
      && sel.modelName == ClientSelection.MockModelName
      && AdaptRecipe(sel.client, sel.modelName, rd, recipe, style).result == Success(MockFinalText)
  {
    var sel := ClientSelection.SelectClient(apiKey, connect);
    MockRunScenario(sel.modelName, rd, recipe, style);
  }
}
