# Recipe adapter: a Dafny model

`recipe_adapter.py` adapts a recipe to a target culinary style by chaining two
generative-model agents around one deterministic tool. The Planner agent is
asked for structured output (a `PlanningResult`: a substitution map and a
loosely typed list of unit conversions). Each conversion entry that holds the
keys `amount`, `unit` and `to_unit` goes through `unit_converter_tool`
(cups to grams at 120 grams per cup, other units unchanged). The Stylist agent
then gets the original recipe, the substitution map and the conversion notes,
and returns the final recipe as free text. When no API key is set, or the
provider rejects it, a deterministic mock client stands in for the provider.

The model is functional. The data shapes are immutable datatypes. Every step is
a pure function. The client is either the mock or a live provider, and a live
provider is an arbitrary function from requests to responses or errors.

| file | module | what it models |
|---|---|---|
| wrappers.dfy | Wrappers | `Option` (Python `None`) and `Result` (a value or a raised exception) |
| plan.dfy | Plan | `Substitution`, `PlanningResult`, loosely typed conversion entries, `mock_data` |
| unit_converter.dfy | UnitConverter | `unit_converter_tool` and its case-insensitive unit test |
| conversions.dfy | Conversions | the conversion loop of the workflow: key filter, coercion, tool call |
| render.dfy | Render | conversion note lines and the newline join |
| agent.dfy | Agent | request and response shapes, `MockModels.generate_content`, `run_agent` |
| client_selection.dfy | ClientSelection | the start-up choice between live and mock client |
| workflow.dfy | Workflow | `run_recipe_adapter_workflow`: Planner, conversions, Stylist |

Modelling choices:

- A conversion entry is a `map<string, Value>`. A value is a number, a string or `None`.
- An entry missing a key is skipped. An entry with all three keys whose amount `float()` rejects (such as `None`), or whose unit is not a string, makes Python raise. The model reports this as a `ConversionError`, and the run ends there.
- The workflow function in the source prints the Stylist's draft and returns `None`. The model returns the draft. It also records the requests sent, in order, so that the call sequence can be stated.
- A live provider whose structured response has no parsed plan makes the next line raise `AttributeError`. The model reports this as `NoPlan`.
- `unit.lower()` is modelled for ASCII letters only. No character outside ASCII lower-cases to `c`, `u`, `p` or `s`, so the cup test is exact.
- The truthiness test `if API_KEY:` also treats an empty key as absent. The model does the same.

## Model

| member | source | states |
|---|---|---|
| Plan.MockData | recipe_adapter.py:21-32 | the mock plan has exactly two substitutions, all fields non-empty, and one conversion entry holding exactly the keys amount, unit and to_unit |
| UnitConverter.Convert | recipe_adapter.py:84-89 | the tool is total; it multiplies by 120 exactly when the unit is some capitalisation of "cup" or "cups", and returns the amount unchanged otherwise, for every amount including zero and negative ones |
| UnitConverter.LowerEqualsWord | recipe_adapter.py:87 | lowering a string gives a lower-case word exactly when the string matches that word letter by letter ignoring case |
| UnitConverter.CupUnitIsCaseInsensitive | recipe_adapter.py:87 | the `lower() in ["cups", "cup"]` test agrees with an independent case-insensitive spelling check |
| UnitConverter.CaseDoesNotMatter | recipe_adapter.py:87 | two units that agree letter by letter after lowering convert every amount to the same result |
| UnitConverter.CupSpellings | recipe_adapter.py:84-89 | "CUPS", "Cup" and "cups" all give amount × 120; "grams" and "tablespoons" give the amount unchanged |
| Conversions.Parse | recipe_adapter.py:144 | an entry is kept exactly when it holds all three keys, and the kept fields are the entry's values under those keys |
| Conversions.ToFloat | recipe_adapter.py:145 | `float()` yields a number exactly for a numeric value, and that number is the value itself |
| Conversions.ConvertParsed | recipe_adapter.py:145-146 | a kept entry converts exactly when its amount is a number and its unit a string; the outcome holds the original amount and unit, the tool's result and the target unit; otherwise the error names the amount first, then the unit |
| Conversions.ConvertAll | recipe_adapter.py:143-146 | a successful loop yields one outcome per kept entry, never more outcomes than entries |
| Conversions.EntriesOf | recipe_adapter.py:141 | a list is iterated as its own entries; a conversion list that is not a list is iterated as empty |
| Conversions.ConversionStage | recipe_adapter.py:141-146 | a non-list yields no outcomes; a list yields exactly the result of the conversion loop over its entries, so the loop lemmas apply to the stage the workflow runs |
| Conversions.KeptMembers | recipe_adapter.py:144 | an entry survives the key filter exactly when it holds all three keys |
| Conversions.KeptConcat | recipe_adapter.py:143-144 | the key filter distributes over concatenation, so kept entries keep their input order |
| Conversions.ConvertAllSucceeds | recipe_adapter.py:143-146 | the loop succeeds exactly when every kept entry converts, and outcome i then comes from kept entry i |
| Conversions.ConvertAllFirstFailure | recipe_adapter.py:143-146 | a failing loop stops with the error of the first kept entry that fails, and all kept entries before it convert |
| Conversions.SkippedEntryIsInvisible | recipe_adapter.py:144 | inserting an entry that misses a key anywhere in the list changes neither the outcomes nor whether the loop fails |
| Conversions.MockConversionYields240 | recipe_adapter.py:143-145 | the mock plan's conversion list yields exactly one outcome, 2.0 cups to 240.0 grams |
| Render.ValueText | recipe_adapter.py:146 | a target unit is rendered as itself when it is a string, as "None" for `None`, and through the number formatting when it is a number |
| Render.NoteLine | recipe_adapter.py:146 | a note is exactly "Original: ", the original amount, a space, the original unit and ". Standardized: ", followed directly by the converted amount, a space, the target unit and a full stop: the prefix, the suffix and a length equal to their sum leave nothing else |
| Render.Join | recipe_adapter.py:148 | joining no lines gives the empty text; otherwise the text opens with the first line, followed by the separator when there are more lines |
| Render.JoinEndsWithLast | recipe_adapter.py:148 | the joined text ends with the last line |
| Render.ConversionNotes | recipe_adapter.py:148 | no outcomes give an empty notes block; one outcome gives exactly its note; otherwise the block opens with the first outcome's note |
| Render.ConversionNotesAppend | recipe_adapter.py:143-148 | every outcome contributes its note: one more outcome adds a newline and its note to the end of a non-empty notes block |
| Render.JoinAppend | recipe_adapter.py:148 | appending a note to a non-empty list appends one newline and that note to the notes block |
| Render.JoinLength | recipe_adapter.py:148 | the notes block is as long as its notes plus one separator between each pair |
| Agent.MockGenerate | recipe_adapter.py:44-50 | the mock returns the mock plan, with the structured placeholder text, exactly when the config holds response_schema; otherwise the final-recipe placeholder and no parsed value |
| Agent.Generate | recipe_adapter.py:107-111 | the mock client answers with the mock response for the request and never fails; a live client answers with whatever its provider returns or raises for that request |
| Agent.BuildConfig | recipe_adapter.py:98-101 | the config holds response_schema exactly when a schema is given; it is then exactly the JSON mime type and the schema, and empty otherwise |
| Agent.Envelope | recipe_adapter.py:104 | the message text opens with "SYSTEM ROLE (", the agent name, "): ", the system prompt and the user-prompt marker, and the user prompt is exactly what follows that header |
| Agent.EnvelopeDeterminesPrompt | recipe_adapter.py:104 | for a fixed agent and system prompt, different user prompts give different message texts |
| Agent.AgentRequest | recipe_adapter.py:103-111 | the request names the configured model, holds exactly one user-role message with one text part carrying the envelope, and carries the config for the schema |
| Agent.RunAgent | recipe_adapter.py:95-113 | one user-role message with one part carrying the envelope; the config is the JSON mime type and the schema when a schema is given and empty otherwise; the result is the response's parsed value with a schema and its text without; a provider error propagates unchanged |
| Agent.MockAgentAnswers | recipe_adapter.py:95-113 | on the mock, a call with a schema returns the mock plan and a call without one returns the final-recipe placeholder |
| ClientSelection.SelectClient | recipe_adapter.py:65-77 | the mock client and "MOCK_MODEL" are chosen exactly when the key is absent, empty, or rejected by the constructor; otherwise the live client is the one the constructor built from the key, under "gemini-2.5-flash" |
| Workflow.PlannerSystemPrompt | recipe_adapter.py:132 | the Planner's system prompt is exactly its opening words, the conceptual model "AI_Reasoning_Engine_Flash" and the closing instruction to answer in the JSON schema, with nothing else |
| Workflow.StylistSystemPrompt | recipe_adapter.py:165 | the Stylist's system prompt is exactly its opening words, the conceptual model, the cuisine instruction, the target style and the closing "' cuisine.", with nothing else |
| Workflow.PlannerPrompt | recipe_adapter.py:123-127 | the Planner prompt is exactly the recipe and then the target style, each after its label, followed directly by the analysis task |
| Workflow.StylistPrompt | recipe_adapter.py:154-160 | the Stylist prompt is exactly the recipe, the serialised substitution map and the conversion notes, in that order after their labels, followed directly by the rewrite task naming the target style |
| Workflow.PlannerRequest | recipe_adapter.py:130-135 | the Planner request names the selected model, is in structured mode, and carries one user message from the Planner with the Planner prompt |
| Workflow.StylistRequest | recipe_adapter.py:163-167 | the Stylist request names the selected model, has an empty config, and carries one user message from the Stylist whose prompt holds the plan's substitutions and the notes of the outcomes |
| Workflow.PlanningStage | recipe_adapter.py:130-135 | the Planner stage succeeds exactly when the provider answers with a parsed plan, and returns that plan; a provider error or a missing plan ends the run |
| Workflow.StylingStage | recipe_adapter.py:163-167 | the Stylist stage returns the provider's text for the Stylist request, or ends the run with the provider's error |
| Workflow.AdaptRecipe | recipe_adapter.py:119-167 | the Planner is called first, with a schema; a provider error, a missing plan or a conversion error ends the run after that single call with that error; when planning and conversion succeed, the Stylist is called second without a schema, its request carries the plan's substitutions and the conversion notes, and the run's result is the Stylist stage's result |
| Workflow.MockRunScenario | recipe_adapter.py:119-167 | on the mock, every run makes two calls, its Stylist prompt carries the mock substitutions and the single 240-gram note, and it returns the final-recipe placeholder, not the Planner's text |
| Workflow.MockFallbackCompletes | recipe_adapter.py:65-77 | with no key, an empty key or a rejected key, the run happens on the mock under "MOCK_MODEL" and ends with the final-recipe placeholder |

## Left out

- The live `genai.Client` and its network call are a foreign library. A live provider is a function parameter (`Agent.Provider`), and its constructor is the `connect` parameter of `SelectClient`.
- Reading `GEMINI_API_KEY` from the environment and the module-level assignment of `client` and `API_MODEL_NAME` are I/O and global state. `SelectClient` takes the optional key and returns the client and model name.
- All console output (`print`) is I/O: the start-up messages, the tool's activation line, the stage banners and the final banner.
- Pydantic validation is not modelled. A live provider's parsed value is either a `PlanningResult` or absent.
- The serialisation of a schema-conformant plan and its re-parse are not modelled, for the same reason.
- `json.dumps(..., indent=2)` of the substitution map and the f-string rendering of floats are formatting. Both are opaque functions in `Render.Renderer`.
- `Plan.Value.Num` holds a `real`, so it merges Python's `int` and `float`. Line 146 prints the raw `amount` and `to_unit`, and an integer amount such as 2 prints as "2" there while the converted amount prints as "2.0". The model renders both amounts with the same `Renderer.number`, so it cannot tell an integer amount or target unit from the equal float.
- Floating-point rounding is not modelled: amounts are `real`, and the tool's multiplication is exact.
- Conversions.ToFloat: Python's `float()` also accepts numeric strings such as "2.0" and booleans; the model yields no number for them.
- Conversions.ConvertParsed: `float()` of a numeric string such as "2.0" or of a boolean succeeds in Python, but the model reports `AmountNotNumeric`. Python's float parsing is not modelled.
- Entries that are not dictionaries are not modelled. For a string entry, Python's `'amount' in conv` is a substring test.
- Values other than numbers, strings and `None` (lists, booleans, nested dictionaries) are not modelled.
- The `__main__` entry point and its hard-coded recipe and style constants are left out. Recipe and style are parameters of `AdaptRecipe`.
- `kwargs.get('config', {})` in the mock has a default for a missing config. `run_agent` always passes a config, so the default is not modelled.
