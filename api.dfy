/** The HTTP endpoint's own logic: the request body is mapped to a profile
    with Python `or` defaults, and the workflow's plan is returned. */
module Api {
  import opened Wrappers
  import opened Text
  import opened Models
  import opened RulesEngine
  import opened LlmEngine
  import opened Workflow
  import BasePlanFacts

  const UnknownLocation: string := "Unknown"
  const DefaultSeniority: string := "junior"
  const DefaultWorkMode: string := "hybrid"

  /** The request-to-profile mapping: the four required fields are copied; a
      missing or empty location, level or work mode takes its default. */
  function ToContext(req: OnboardingRequest): (ctx: EmployeeContext)
    ensures ctx.employeeName == req.employeeName && ctx.role == req.role
    ensures ctx.department == req.department && ctx.startDate == req.startDate
    ensures Truthy(req.location) ==> ctx.location == req.location.value
    ensures !Truthy(req.location) ==> ctx.location == UnknownLocation
    ensures Truthy(req.level) ==> ctx.seniorityLevel == req.level.value
    ensures !Truthy(req.level) ==> ctx.seniorityLevel == DefaultSeniority
    ensures Truthy(req.workMode) ==> ctx.workMode == req.workMode.value
    ensures !Truthy(req.workMode) ==> ctx.workMode == DefaultWorkMode
    ensures ctx.location != "" && ctx.seniorityLevel != "" && ctx.workMode != ""
  {
    EmployeeContext(
      employeeName := req.employeeName,
      role := req.role,
      department := req.department,
      location := OrDefault(req.location, UnknownLocation),
      startDate := req.startDate,
      seniorityLevel := OrDefault(req.level, DefaultSeniority),
      workMode := OrDefault(req.workMode, DefaultWorkMode))
  }

  /** Only seven request fields reach the profile: manager name, language,
      contract type, tools, goals, role context and notes do not. */
  lemma ToContextIgnoresExtraFields(req: OnboardingRequest, other: OnboardingRequest)
    requires other.employeeName == req.employeeName && other.role == req.role
    requires other.department == req.department && other.startDate == req.startDate
    requires other.location == req.location && other.level == req.level
    requires other.workMode == req.workMode
    ensures ToContext(other) == ToContext(req)
  {
  }

  /** A request with only its required fields gives the default location,
      seniority and work mode. */
  lemma MinimalRequestDefaults(employeeName: string, role: string, department: string,
                               startDate: string)
    ensures var ctx := ToContext(NewRequest(employeeName, role, department, startDate));
      ctx.location == "Unknown" && ctx.seniorityLevel == "junior" && ctx.workMode == "hybrid"
  {
  }

  /** The endpoint: the workflow's plan for the mapped profile. With the flag
      off that is the profile's base plan; in every case a returned plan is
      the base plan apart from the enrichment texts, for the mapped profile. */
  function GenerateOnboardingPlan(s: LlmSettings, wx: Watsonx, req: OnboardingRequest): (run: Run)
    ensures !s.useLlm ==> run == Run(Success(BasePlan(ToContext(req))), [])
    ensures run.result.Success? ==> SameStructure(run.result.value, BasePlan(ToContext(req)))
    ensures run.result.Success? ==> run.result.value.employee == ToContext(req)
  {
    WorkflowKeepsBasePlan(s, wx, ToContext(req));
    GeneratePlanWorkflow(s, wx, ToContext(req))
  }

  /** The summary of a returned plan names the requested employee, role,
      department and start date. */
  lemma EndpointPlanReflectsRequest(s: LlmSettings, wx: Watsonx, req: OnboardingRequest)
    ensures var run := GenerateOnboardingPlan(s, wx, req);
      run.result.Success? ==>
        var summary := run.result.value.summary;
        Contains(summary, req.employeeName) && Contains(summary, req.role) &&
        Contains(summary, req.department) && Contains(summary, req.startDate)
  {
    BasePlanFacts.BasePlanSummaryMentionsProfile(ToContext(req));
  }
}
