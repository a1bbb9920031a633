/** The orchestrator: the rule-based plan is always built first, and the
    enrichment step runs on it only when the feature flag is on. */
module Workflow {
  import opened Wrappers
  import opened Models
  import opened RulesEngine
  import opened LlmEngine

  /** The plan the workflow returns for a profile, with the prompts sent. */
  function GeneratePlanWorkflow(s: LlmSettings, wx: Watsonx, ctx: EmployeeContext): (run: Run)
    ensures !s.useLlm ==> run == Run(Success(BasePlan(ctx)), [])
    ensures s.useLlm ==> run == Enrichment(s, wx, ctx, BasePlan(ctx))
  {
    var basePlan := BasePlan(ctx);
    if s.useLlm then Enrichment(s, wx, ctx, basePlan) else Run(Success(basePlan), [])
  }

  /** Whatever the flag, the credentials and the generator do, a returned
      plan has the base plan's profile, summary, phases, tasks, meetings and
      resources, and its enrichment texts are all set or all absent. */
  lemma WorkflowKeepsBasePlan(s: LlmSettings, wx: Watsonx, ctx: EmployeeContext)
    ensures var run := GeneratePlanWorkflow(s, wx, ctx);
      run.result.Success? ==> SameStructure(run.result.value, BasePlan(ctx))
    ensures var run := GeneratePlanWorkflow(s, wx, ctx);
      run.result.Success? ==> run.result.value.employee == ctx
    ensures var run := GeneratePlanWorkflow(s, wx, ctx);
      run.result.Success? ==> NotEnriched(run.result.value) || FullyEnriched(run.result.value)
  {
    var basePlan := BasePlan(ctx);
    var run := GeneratePlanWorkflow(s, wx, ctx);
    if s.useLlm {
      assert EnrichmentContract(s, wx, basePlan, Prompts(basePlan), run);
    }
  }

  /** With the flag on but no usable client, the base plan comes back and
      nothing is sent. */
  lemma WorkflowWithoutClient(s: LlmSettings, wx: Watsonx, ctx: EmployeeContext)
    requires GetGraniteModel(s, wx).Failure?
    ensures GeneratePlanWorkflow(s, wx, ctx) == Run(Success(BasePlan(ctx)), [])
  {
    var basePlan := BasePlan(ctx);
    if s.useLlm {
      assert EnrichmentContract(s, wx, basePlan, Prompts(basePlan), Enrichment(s, wx, ctx, basePlan));
    }
  }
}
