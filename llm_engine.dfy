/** The optional enrichment step: three prompts built from a plan, a
    watsonx.ai Granite model chosen from the settings, and three generation
    calls whose texts are copied into the plan.

    The fixed lines of each prompt template are kept in constants and written
    as short literals joined with `+`. This is there only to keep
    verification cheap; each joined text is exactly the template's text. */
module LlmEngine {
  import opened Wrappers
  import opened Text
  import opened Models

  /** The settings the enrichment step reads: the feature flag and the
      watsonx.ai credentials, region and model id, each possibly unset. */
  datatype LlmSettings = LlmSettings(
    useLlm: bool,
    apiKey: Option<string>,
    projectId: Option<string>,
    region: Option<string>,
    modelId: Option<string>)

  const DefaultRegion: string := "eu-de"
  const DefaultModelId: string := "ibm/granite-3-8b-instruct"

  /** What the client is built from: endpoint, model id and credentials. */
  datatype GraniteModel = GraniteModel(url: string, modelId: string, apiKey: string, projectId: string)

  /** Why the client could not be set up: a credential is unset or empty, or
      the SDK refused to build the client. */
  datatype InitError = MissingCredentials | ClientConstructionFailed

  /** A failed generation call, which the enrichment step does not catch. */
  datatype GenerationError = GenerationError(message: string)

  /** The watsonx.ai service as the model sees it: whether a client for a
      model can be built, and the text (or error) it returns for a prompt. */
  datatype Watsonx = Watsonx(
    connects: GraniteModel -> bool,
    generateText: (GraniteModel, string) -> Result<string, GenerationError>)

  /** The regional watsonx.ai endpoint. */
  function Endpoint(region: string): (url: string)
    ensures |url| == |region| + 25
    ensures url[..8] == "https://" && url[8..8 + |region|] == region
    ensures url[8 + |region|..] == ".ml.cloud.ibm.com"
  {
    "https://" + region + ".ml.cloud.ibm.com"
  }

  /** Two regions give the same endpoint only if they are the same region. */
  lemma EndpointInjective(r1: string, r2: string)
    requires Endpoint(r1) == Endpoint(r2)
    ensures r1 == r2
  {
    assert |r1| == |r2|;
    assert r1 == Endpoint(r1)[8..8 + |r1|];
  }

  /** Choosing the model: region and model id fall back to their defaults when
      unset or empty; an unset or empty API key or project id is an error; and
      the SDK may still refuse to build the client. */
  function GetGraniteModel(s: LlmSettings, wx: Watsonx): (r: Result<GraniteModel, InitError>)
    ensures r == Failure(MissingCredentials) <==> !Truthy(s.apiKey) || !Truthy(s.projectId)
    ensures r.Success? ==> wx.connects(r.value)
    ensures r.Success? ==> r.value.apiKey == s.apiKey.value && r.value.projectId == s.projectId.value
    ensures r.Success? ==> r.value.url == Endpoint(OrDefault(s.region, DefaultRegion))
    ensures r.Success? ==> r.value.modelId == OrDefault(s.modelId, DefaultModelId)
    ensures r.Success? && !Truthy(s.region) ==> r.value.url == Endpoint(DefaultRegion)
    ensures r.Success? && !Truthy(s.modelId) ==> r.value.modelId == DefaultModelId
    ensures r.Success? ==> r.value.apiKey != "" && r.value.projectId != "" && r.value.modelId != ""
    ensures r == Failure(ClientConstructionFailed) ==>
              !wx.connects(GraniteModel(Endpoint(OrDefault(s.region, DefaultRegion)),
                                        OrDefault(s.modelId, DefaultModelId),
                                        s.apiKey.value, s.projectId.value))
  {
    var region := OrDefault(s.region, DefaultRegion);
    var modelId := OrDefault(s.modelId, DefaultModelId);
    if !Truthy(s.apiKey) || !Truthy(s.projectId) then
      Failure(MissingCredentials)
    else
      var model := GraniteModel(Endpoint(region), modelId, s.apiKey.value, s.projectId.value);
      if wx.connects(model) then Success(model) else Failure(ClientConstructionFailed)
  }

  /** The fixed lines of the three prompts before the first and after the
      last interpolated value, as `textwrap.dedent(...).strip()` leaves them. */
  const EmailOpening: string :=
    "You are OnboardGenie, an " + "enterprise-grade HR " + "onboarding assistant.\n\n" +
    "Task:\n" +
    "Write a warm, concise " + "welcome email from the " + "hiring manager\n" +
    "to the new employee below.\n\n" +
    "Employee:\n" +
    "- Name: "
  const EmailClosing: string :=
    "\n\n" +
    "Requirements:\n" +
    "- Tone: friendly, " + "professional, clear\n" +
    "- Language: English\n" +
    "- Style: HR-grade, " + "corporate\n" +
    "- Include a short welcome, " + "first-day expectations, and " +
      "who to contact for " + "questions\n" +
    "- Do not add explanations " + "or comments around the " + "email\n\n" +
    "Return:\n" +
    "Only the email body, " + "including a subject line."
  const ManagerOpening: string :=
    "You are OnboardGenie, an HR " + "coach for managers.\n\n" +
    "Context:\n" +
    "A new hire has just joined.\n\n" +
    "Employee:\n" +
    "- Role: "
  const ManagerClosing: string :=
    "\n\n" +
    "Task:\n" +
    "Summarize what the manager " + "should focus on during the " + "first 90 days.\n\n" +
    "Structure:\n" +
    "- 30 days: focus on " + "integration, trust, and " + "clarity\n" +
    "- 60 days: focus on " + "ownership, feedback, and " + "performance\n" +
    "- 90 days: focus on " + "autonomy, impact, and " + "growth\n\n" +
    "Output requirements:\n" +
    "- Use clear bullet points " + "starting with \"- \"\n" +
    "- Keep it practical and " + "actionable\n" +
    "- Language: English, " + "concise, executive-friendly\n" +
    "- No extra explanation " + "outside the bullet list"
  const LearningOpening: string :=
    "You are OnboardGenie, a " + "learning & development " + "specialist.\n\n" +
    "Employee profile:\n" +
    "- Role: "
  const LearningClosing: string :=
    "\n\n" +
    "Task:\n" +
    "Design a short learning " + "path for this new hire over " + "the first 3 months.\n\n" +
    "Structure it exactly as:\n" +
    "- Week 1:\n" +
    "- Weeks 2-4:\n" +
    "- Months 2-3:\n\n" +
    "Requirements:\n" +
    "- Focus on what they must " + "understand to be productive " + "in this role\n" +
    "- Mix company knowledge, " + "tools, processes and " + "technical skills\n" +
    "- Language: English, " + "concise and practical\n" +
    "- Return ONLY the list " + "above, no commentary"

  /** The welcome-email prompt's fixed lines and the profile fields between
      them (name, role, department, location, start date at 1, 3, 5, 7, 9). */
  function EmailPromptParts(e: EmployeeContext): seq<string> {
    [EmailOpening,
     e.employeeName,
     "\n- Role: ",
     e.role,
     "\n- Department: ",
     e.department,
     "\n- Location: ",
     e.location,
     "\n- Start date: ",
     e.startDate,
     EmailClosing]
  }

  /** The manager-briefing prompt: role, department, seniority, work mode and
      the plan's summary at 1, 3, 5, 7, 9. */
  function ManagerPromptParts(e: EmployeeContext, summary: string): seq<string> {
    [ManagerOpening,
     e.role,
     "\n- Department: ",
     e.department,
     "\n- Seniority: ",
     e.seniorityLevel,
     "\n- Work mode: ",
     e.workMode,
     "\n\nCurrent onboarding " + "summary:\n",
     summary,
     ManagerClosing]
  }

  /** The learning-path prompt: role, department and seniority at 1, 3, 5. */
  function LearningPromptParts(e: EmployeeContext): seq<string> {
    [LearningOpening,
     e.role,
     "\n- Department: ",
     e.department,
     "\n- Seniority: ",
     e.seniorityLevel,
     LearningClosing]
  }

  /** The prompts are built from the plan's own profile: each is its
      template's parts joined in order. */
  function EmailPrompt(plan: OnboardingPlan): string {
    Concat(EmailPromptParts(plan.employee))
  }

  function ManagerPrompt(plan: OnboardingPlan): string {
    Concat(ManagerPromptParts(plan.employee, plan.summary))
  }

  function LearningPrompt(plan: OnboardingPlan): string {
    Concat(LearningPromptParts(plan.employee))
  }

  /** Each prompt opens with its template's opening lines and ends with its
      closing instructions, whatever the profile. */
  lemma PromptsFramed(plan: OnboardingPlan)
    ensures StartsWith(EmailPrompt(plan), EmailOpening) && EndsWith(EmailPrompt(plan), EmailClosing)
    ensures StartsWith(ManagerPrompt(plan), ManagerOpening) && EndsWith(ManagerPrompt(plan), ManagerClosing)
    ensures StartsWith(LearningPrompt(plan), LearningOpening) && EndsWith(LearningPrompt(plan), LearningClosing)
  {
    ConcatEnds(EmailPromptParts(plan.employee));
    ConcatEnds(ManagerPromptParts(plan.employee, plan.summary));
    ConcatEnds(LearningPromptParts(plan.employee));
  }

  /** The welcome-email prompt embeds the name, role, department, location and start date. */
  lemma EmailPromptEmbedsProfile(plan: OnboardingPlan)
    ensures var p := EmailPrompt(plan); var e := plan.employee;
      Contains(p, e.employeeName) && Contains(p, e.role) && Contains(p, e.department) &&
      Contains(p, e.location) && Contains(p, e.startDate)
  {
    var parts := EmailPromptParts(plan.employee);
    ContainsPart(parts, 1);
    ContainsPart(parts, 3);
    ContainsPart(parts, 5);
    ContainsPart(parts, 7);
    ContainsPart(parts, 9);
  }

  /** The manager prompt embeds role, department, seniority, work mode and the summary. */
  lemma ManagerPromptEmbedsProfile(plan: OnboardingPlan)
    ensures var p := ManagerPrompt(plan); var e := plan.employee;
      Contains(p, e.role) && Contains(p, e.department) && Contains(p, e.seniorityLevel) &&
      Contains(p, e.workMode) && Contains(p, plan.summary)
  {
    var parts := ManagerPromptParts(plan.employee, plan.summary);
    ContainsPart(parts, 1);
    ContainsPart(parts, 3);
    ContainsPart(parts, 5);
    ContainsPart(parts, 7);
    ContainsPart(parts, 9);
  }

  /** The learning prompt embeds role, department and seniority. */
  lemma LearningPromptEmbedsProfile(plan: OnboardingPlan)
    ensures var p := LearningPrompt(plan); var e := plan.employee;
      Contains(p, e.role) && Contains(p, e.department) && Contains(p, e.seniorityLevel)
  {
    var parts := LearningPromptParts(plan.employee);
    ContainsPart(parts, 1);
    ContainsPart(parts, 3);
    ContainsPart(parts, 5);
  }

  /** The outcome of enrichment: the plan, or the error of the first failing
      generation call, together with the prompts sent, in order. */
  datatype Run = Run(result: Result<OnboardingPlan, GenerationError>, prompts: seq<string>)

  /** The three prompts, in the order they are sent. */
  function Prompts(plan: OnboardingPlan): seq<string> {
    [EmailPrompt(plan), ManagerPrompt(plan), LearningPrompt(plan)]
  }

  /** What enrichment promises whatever the generator answers: with the flag
      off or no client it returns the base plan and sends nothing; it sends a
      prefix of `prompts`; a plan it returns differs from the base plan at
      most in the three enrichment texts, and is either the base plan itself,
      with nothing sent, or has all three texts, with everything sent; and it
      fails only after sending. */
  predicate EnrichmentContract(s: LlmSettings, wx: Watsonx, basePlan: OnboardingPlan,
                               prompts: seq<string>, run: Run)
  {
    && (!s.useLlm ==> run == Run(Success(basePlan), []))
    && (s.useLlm && GetGraniteModel(s, wx).Failure? ==> run == Run(Success(basePlan), []))
    && run.prompts <= prompts
    && (run.result.Success? ==> SameStructure(run.result.value, basePlan))
    && (run.result.Success? ==>
          || (run.prompts == [] && run.result.value == basePlan)
          || (run.prompts == prompts && FullyEnriched(run.result.value)))
    && (run.result.Failure? ==> 0 < |run.prompts|)
  }

  /** Enrichment once the prompts are built: `prompts` holds the email, the
      manager and the learning prompt, in the order they are sent. */
  function EnrichWith(s: LlmSettings, wx: Watsonx, basePlan: OnboardingPlan,
                      prompts: seq<string>): (run: Run)
    requires |prompts| == 3
    ensures EnrichmentContract(s, wx, basePlan, prompts, run)
  {
    if !s.useLlm then Run(Success(basePlan), [])
    else
      match GetGraniteModel(s, wx)
      case Failure(_) => Run(Success(basePlan), [])
      case Success(model) =>
        match wx.generateText(model, prompts[0])
        case Failure(err) => Run(Failure(err), prompts[..1])
        case Success(welcomeEmail) =>
          match wx.generateText(model, prompts[1])
          case Failure(err) => Run(Failure(err), prompts[..2])
          case Success(managerBriefing) =>
            match wx.generateText(model, prompts[2])
            case Failure(err) => Run(Failure(err), prompts)
            case Success(learningPath) =>
              Run(Success(basePlan.(welcomeEmail := Some(welcomeEmail),
                                    managerBriefing := Some(managerBriefing),
                                    learningPath := Some(learningPath))),
                  prompts)
  }

  /** Once the client is built, a successful run has sent all three prompts
      and holds exactly the generator's three answers. */
  lemma EnrichWithOutputs(s: LlmSettings, wx: Watsonx, basePlan: OnboardingPlan,
                          prompts: seq<string>, model: GraniteModel)
    requires |prompts| == 3
    requires s.useLlm && GetGraniteModel(s, wx) == Success(model)
    ensures var run := EnrichWith(s, wx, basePlan, prompts);
      run.result.Success? ==>
        && run.prompts == prompts
        && run.result.value.welcomeEmail == Some(wx.generateText(model, prompts[0]).value)
        && run.result.value.managerBriefing == Some(wx.generateText(model, prompts[1]).value)
        && run.result.value.learningPath == Some(wx.generateText(model, prompts[2]).value)
  {
  }

  /** Once the client is built, the run fails exactly when one of the calls
      fails; it then carries the first failing call's error, no plan, and
      the prompts up to and including that call's. */
  lemma EnrichWithFailures(s: LlmSettings, wx: Watsonx, basePlan: OnboardingPlan,
                           prompts: seq<string>, model: GraniteModel)
    requires |prompts| == 3
    requires s.useLlm && GetGraniteModel(s, wx) == Success(model)
    ensures var run := EnrichWith(s, wx, basePlan, prompts);
      && (run.result.Failure? <==>
            exists k :: 0 <= k < 3 && wx.generateText(model, prompts[k]).Failure?)
      && (forall k :: 0 <= k < 3 && wx.generateText(model, prompts[k]).Failure? &&
                      (forall j :: 0 <= j < k ==> wx.generateText(model, prompts[j]).Success?)
            ==> run == Run(Failure(wx.generateText(model, prompts[k]).error), prompts[..k + 1]))
  {
  }

  /** What enrichment does with a base plan: its own three prompts go out. */
  function Enrichment(s: LlmSettings, wx: Watsonx, ctx: EmployeeContext,
                      basePlan: OnboardingPlan): (run: Run)
    ensures EnrichmentContract(s, wx, basePlan, Prompts(basePlan), run)
  {
    EnrichWith(s, wx, basePlan, Prompts(basePlan))
  }

  /** The `ctx` argument is never read: only the plan's own profile matters. */
  lemma EnrichmentIgnoresContext(s: LlmSettings, wx: Watsonx, ctx1: EmployeeContext,
                                 ctx2: EmployeeContext, basePlan: OnboardingPlan)
    ensures Enrichment(s, wx, ctx1, basePlan) == Enrichment(s, wx, ctx2, basePlan)
  {
  }

  /** The enrichment step as written: early returns, three calls in sequence,
      then a copy of the base plan with the three texts set. */
  method EnrichPlanWithLlm(s: LlmSettings, wx: Watsonx, ctx: EmployeeContext,
                           basePlan: OnboardingPlan)
    returns (result: Result<OnboardingPlan, GenerationError>, prompts: seq<string>)
    ensures Run(result, prompts) == Enrichment(s, wx, ctx, basePlan)
  {
    prompts := [];
    if !s.useLlm {
      return Success(basePlan), prompts;
    }

    var init := GetGraniteModel(s, wx);
    if init.Failure? {
      return Success(basePlan), prompts;
    }
    var model := init.value;

    // 1) Welcome email
    var emailPrompt := EmailPrompt(basePlan);
    prompts := prompts + [emailPrompt];
    var welcomeEmail := wx.generateText(model, emailPrompt);
    if welcomeEmail.Failure? {
      return Failure(welcomeEmail.error), prompts;
    }

    // 2) Manager briefing
    var managerPrompt := ManagerPrompt(basePlan);
    prompts := prompts + [managerPrompt];
    var managerBriefing := wx.generateText(model, managerPrompt);
    if managerBriefing.Failure? {
      return Failure(managerBriefing.error), prompts;
    }

    // 3) Learning path
    var learningPrompt := LearningPrompt(basePlan);
    prompts := prompts + [learningPrompt];
    var learningPath := wx.generateText(model, learningPrompt);
    if learningPath.Failure? {
      return Failure(learningPath.error), prompts;
    }

    var enriched := basePlan;
    enriched := enriched.(welcomeEmail := Some(welcomeEmail.value));
    enriched := enriched.(managerBriefing := Some(managerBriefing.value));
    enriched := enriched.(learningPath := Some(learningPath.value));
    result := Success(enriched);
  }
}
