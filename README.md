# OnboardGenie backend core in Dafny

OnboardGenie builds a 30-60-90 day onboarding plan for a new employee. A
rule-based builder always produces the plan's structure: six phases, nine
tasks, a summary, four meetings and four learning resources. Then, when the
`USE_LLM` flag is on, an optional step asks an IBM Granite model on
watsonx.ai for three texts: a welcome email, a manager briefing and a
learning path. The HTTP endpoint maps a camel-case request onto an internal
employee profile, applying defaults, and returns the workflow's plan.

The model has these modules:

- `Wrappers`: `Option` and `Result`.
- `Text`: substring containment, concatenation of parts (the model of an
  f-string), and Python's `x or default` on optional strings.
- `Models`: the four records and their default-valued constructors.
- `RulesEngine`: the builder as a specification function `BasePlan` and as
  the method `GenerateBasePlan`, which appends the nine tasks one by one.
- `BasePlanFacts`: the structural properties of the base plan.
- `LlmEngine`: settings and defaults, the three prompts, and the enrichment
  step, both as the function `Enrichment` and as the method
  `EnrichPlanWithLlm`.
- `Workflow` and `Api`: the orchestrator and the endpoint.

External inputs become parameters:

- The settings (flag, API key, project id, region, model id) are an
  `LlmSettings` value.
- The watsonx.ai service is a `Watsonx` value with two functions. One says
  whether a client for a given model can be built. The other returns the
  generated text, or an error, for a prompt.
- A run of the enrichment step returns a `Run`: the plan, or the error of
  the first failed generation call, together with the prompts sent, in
  order.

The code does not catch a failed generation call
(app/llm_engine.py:156-166), so the request fails and no partial enrichment
can happen. The model follows the code: a failed call yields `Failure` and
no plan (`LlmEngine.EnrichWithFailures`).

Python values are immutable in the model. So `base_plan.copy()` followed by
three assignments is a record update, and the caller's base plan cannot
change.

## Model

| member | source | states |
|---|---|---|
| Models.NewTask | app/models.py:20-31 | a task built without a channel has `channel == None`; every other field is the one given |
| Models.NewPlan | app/models.py:34-51 | a plan built without the three enrichment fields has all three absent; the six structural fields are the ones given |
| Models.NewRequest | app/models.py:54-74 | a request built from its four required fields has every optional field absent |
| Text.OrDefault | app/main.py:35-38 | Python `x or d` on an optional string: a present, non-empty value is kept; an absent or empty one gives `d`; the result is empty only if `d` is |
| Text.ContainsPart | app/rules_engine.py:12-17 | every part of an f-string-style concatenation occurs in the concatenated text |
| Text.ConcatEnds | app/llm_engine.py:38-66 | an f-string-style concatenation begins with its first part and ends with its last |
| RulesEngine.BasePlan | app/rules_engine.py:4-139 | the plan's profile is `ctx`; its phases are exactly the six phases; it has 9 tasks, 4 meetings and 4 learning resources; all three enrichment texts are absent |
| RulesEngine.GenerateBasePlan | app/rules_engine.py:4-139 | the append-by-append builder returns exactly `BasePlan(ctx)` |
| BasePlanFacts.BasePlanColumns | app/rules_engine.py:22-116 | the base plan's per-task ids, phases, offsets, owners and channels are exactly the hard-coded columns |
| BasePlanFacts.IdColumnDistinct | app/rules_engine.py:22-116 | tasks carrying the hard-coded id column have pairwise distinct ids |
| BasePlanFacts.PhaseColumnMembership | app/rules_engine.py:10-116 | tasks carrying the hard-coded phase column use only declared phases, and never "month2" |
| BasePlanFacts.PhaseColumnRanks | app/rules_engine.py:10-116 | tasks carrying the hard-coded phase column sit at nondecreasing positions of the phase list |
| BasePlanFacts.OffsetColumnFacts | app/rules_engine.py:28-114 | with the hard-coded offset and phase columns, offsets never decrease and are negative exactly in preboarding |
| BasePlanFacts.OwnerAndChannelColumnFacts | app/rules_engine.py:27-115 | with the hard-coded owner and channel columns, every owner is HR, IT, Manager or Employee, and every channel is present and one of email, task or meeting |
| BasePlanFacts.BasePlanTaskIds | app/rules_engine.py:22-116 | the ids are pre-1, pre-2, pre-3, d1-1, d1-2, w1-1, w1-2, m1-1, m3-1 in this order, all distinct |
| BasePlanFacts.BasePlanTaskPhases | app/rules_engine.py:10-116 | every task's phase belongs to the plan's own phase list, and none is "month2" |
| BasePlanFacts.BasePlanPhaseOrder | app/rules_engine.py:10-116 | task phases appear in nondecreasing order of the plan's phase list |
| BasePlanFacts.BasePlanDueOffsets | app/rules_engine.py:28-114 | the offsets are -5, -3, -2, 0, 0, 3, 5, 25, 85; they never decrease; an offset is negative exactly for preboarding tasks |
| BasePlanFacts.BasePlanOwnersAndChannels | app/rules_engine.py:27-115 | every owner is one of the four roles; every channel is present and one of the three channels |
| BasePlanFacts.BasePlanSummaryMentionsProfile | app/rules_engine.py:12-17 | the summary contains the employee name, role, department, location and start date |
| BasePlanFacts.WelcomeEmailTaskNamesEmployee | app/rules_engine.py:40-51 | the third task is pre-3, and its description contains the employee name |
| BasePlanFacts.TeamIntroTaskNamesRole | app/rules_engine.py:63-74 | the fifth task is d1-2, and its description contains the role |
| BasePlanFacts.TechnicalResourceNamesRoleAndDepartment | app/rules_engine.py:125-130 | the third learning resource contains the role and the department |
| BasePlanFacts.BasePlanIgnoresSeniorityAndWorkMode | app/rules_engine.py:4-130 | two profiles that differ only in seniority and work mode give the same plan apart from the profile itself |
| LlmEngine.Endpoint | app/llm_engine.py:22 | the URL is "https://", then the region, then ".ml.cloud.ibm.com"; no other characters are added |
| LlmEngine.EndpointInjective | app/llm_engine.py:22 | distinct regions give distinct endpoints |
| LlmEngine.GetGraniteModel | app/llm_engine.py:14-35 | an absent or empty API key or project id is exactly the missing-credentials error; on success the model carries both credentials, the endpoint of the region (default "eu-de"), the model id (default "ibm/granite-3-8b-instruct"), and the SDK accepted it; a construction failure means the SDK refused that very model |
| LlmEngine.EmailPrompt | app/llm_engine.py:38-66 | defined as the welcome-email template's fixed lines with the name, role, department, location and start date between them; its properties are `LlmEngine.EmailPromptEmbedsProfile` and `LlmEngine.PromptsFramed` |
| LlmEngine.ManagerPrompt | app/llm_engine.py:69-102 | defined as the manager-briefing template's fixed lines with role, department, seniority, work mode and the plan's summary between them; its properties are `LlmEngine.ManagerPromptEmbedsProfile` and `LlmEngine.PromptsFramed` |
| LlmEngine.LearningPrompt | app/llm_engine.py:105-131 | defined as the learning-path template's fixed lines with role, department and seniority between them; its properties are `LlmEngine.LearningPromptEmbedsProfile` and `LlmEngine.PromptsFramed` |
| LlmEngine.PromptsFramed | app/llm_engine.py:38-131 | whatever the profile, each prompt starts with its template's opening lines and ends with its closing instructions |
| LlmEngine.EmailPromptEmbedsProfile | app/llm_engine.py:38-66 | the welcome-email prompt contains the name, role, department, location and start date of the plan's own profile |
| LlmEngine.ManagerPromptEmbedsProfile | app/llm_engine.py:69-102 | the manager prompt contains the role, department, seniority, work mode and the plan's summary |
| LlmEngine.LearningPromptEmbedsProfile | app/llm_engine.py:105-131 | the learning prompt contains the role, department and seniority |
| LlmEngine.EnrichWith | app/llm_engine.py:143-173 | the enrichment contract: flag off or no client gives the base plan and sends nothing; the prompts sent are a prefix of the three; a returned plan has the base plan's structure; it is either the base plan with nothing sent, or has all three texts with all three prompts sent; a failure comes only after a prompt was sent |
| LlmEngine.EnrichWithOutputs | app/llm_engine.py:153-171 | once the client is built, a successful run sent the three prompts in order, and its three texts are the generator's answers to the email, manager and learning prompts |
| LlmEngine.EnrichWithFailures | app/llm_engine.py:153-166 | once the client is built, the run fails exactly when one of the three calls fails; it then carries the first failing call's error, no plan, and the prompts up to that call |
| LlmEngine.Enrichment | app/llm_engine.py:134-173 | the enrichment contract above, for the base plan's own three prompts |
| LlmEngine.EnrichmentIgnoresContext | app/llm_engine.py:134-173 | the `ctx` argument does not influence the result |
| LlmEngine.EnrichPlanWithLlm | app/llm_engine.py:134-173 | the step as written (early returns, three sequential calls, copy then set) returns exactly `Enrichment`'s plan or error and sends exactly its prompts |
| Workflow.GeneratePlanWorkflow | app/workflow.py:7-21 | flag off: the result is the base plan of `ctx` and nothing is sent; flag on: the result is the enrichment of that base plan |
| Workflow.WorkflowKeepsBasePlan | app/workflow.py:14-21 | a returned plan has the base plan's profile, summary, phases, tasks, meetings and resources, its profile is `ctx`, and its three texts are all absent or all present |
| Workflow.WorkflowWithoutClient | app/llm_engine.py:147-151 | when the client cannot be built, the workflow returns the base plan and sends nothing, whatever the flag |
| Api.ToContext | app/main.py:31-39 | name, role, department and start date are copied; location, level and work mode are kept when present and non-empty and otherwise become "Unknown", "junior" and "hybrid"; the three are never empty |
| Api.ToContextIgnoresExtraFields | app/main.py:31-39 | manager name, language, contract type, tools, goals, role context and notes do not affect the profile |
| Api.MinimalRequestDefaults | app/main.py:31-39 | a request with only its required fields maps to location "Unknown", seniority "junior" and work mode "hybrid" |
| Api.GenerateOnboardingPlan | app/main.py:31-42 | the workflow's run for the mapped profile: with the flag off it is the base plan of that profile and nothing is sent; a returned plan always has that base plan's structure and profile |
| Api.EndpointPlanReflectsRequest | app/main.py:41-42 | the summary of a returned plan names the requested employee, role, department and start date |

## Left out

- The watsonx.ai SDK (`Credentials`, `Model`, `generate_text`) is a foreign
  call. The model replaces it with the two functions of a `Watsonx` value.
  Repeated calls with the same prompt therefore give the same answer, which
  the real service need not do.
- The generation parameters (greedy decoding, 512 new tokens, temperature
  0.3) only configure the foreign call.
- `print` logging is output only.
- Exact prompt layout: each prompt is the concatenation of its template's
  lines and fields, as `textwrap.dedent(...).strip()` produces it when no
  interpolated value contains a line break and the summary is not made of
  blanks only. For such values dedent would re-indent or blank lines; the
  model does not capture that.
- The FastAPI application object, the `/health` endpoint and pydantic
  validation of the request body are framework code.
- app/config.py as a whole: environment and dotenv loading, and the
  case-insensitive parse of `USE_LLM`. The flag and the credentials are
  fields of `LlmSettings`.
- Evaluation order: the workflow builds the base plan before looking at the
  flag. In a pure model that order cannot be observed.
- Exceptions: the two initialisation failures, unset or empty credentials
  (app/llm_engine.py:19-20) and an SDK construction failure
  (app/llm_engine.py:24-34), are modelled as `InitError` and caught
  (app/llm_engine.py:147-151); a failed generation call is modelled and not
  caught. The code raises nothing else the model needs: the rule-based
  builder and the request mapping have no error path.
