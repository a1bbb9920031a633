/** The records exchanged by the plan builder, the enrichment step and the
    HTTP endpoint, with the defaults their declarations give. */
module Models {
  import opened Wrappers

  /** The normalised employee profile that the rules engine and the prompts read.
      Seniority ("junior", "mid", "senior") and work mode ("remote", "hybrid",
      "onsite") are documented values only: any string is accepted. */
  datatype EmployeeContext = EmployeeContext(
    employeeName: string,
    role: string,
    department: string,
    location: string,
    startDate: string,
    seniorityLevel: string,
    workMode: string)

  /** One onboarding task; `dueOffsetDays` is a signed day count relative to
      the start date (negative means before the first day). */
  datatype OnboardingTask = OnboardingTask(
    id: string,
    phase: string,
    title: string,
    description: string,
    owner: string,
    dueOffsetDays: int,
    channel: Option<string>)

  /** The plan returned to the caller: the rule-based structure plus three
      optional texts that only enrichment fills in. */
  datatype OnboardingPlan = OnboardingPlan(
    employee: EmployeeContext,
    summary: string,
    phases: seq<string>,
    tasks: seq<OnboardingTask>,
    suggestedMeetings: seq<string>,
    learningResources: seq<string>,
    welcomeEmail: Option<string>,
    managerBriefing: Option<string>,
    learningPath: Option<string>)

  /** The inbound request body (the external, camel-case contract). */
  datatype OnboardingRequest = OnboardingRequest(
    employeeName: string,
    role: string,
    department: string,
    startDate: string,
    level: Option<string>,
    location: Option<string>,
    workMode: Option<string>,
    managerName: Option<string>,
    language: Option<string>,
    contractType: Option<string>,
    toolsNeeded: Option<seq<string>>,
    onboardingGoals: Option<seq<string>>,
    roleContext: Option<string>,
    customNotes: Option<string>)

  /** A task built without a channel: the channel defaults to absent. */
  function NewTask(id: string, phase: string, title: string, description: string,
                   owner: string, dueOffsetDays: int): (t: OnboardingTask)
    ensures t.channel == None
    ensures t.id == id && t.phase == phase && t.title == title
    ensures t.description == description && t.owner == owner
    ensures t.dueOffsetDays == dueOffsetDays
  {
    OnboardingTask(id, phase, title, description, owner, dueOffsetDays, None)
  }

  /** A plan built without the enrichment fields: all three default to absent. */
  function NewPlan(employee: EmployeeContext, summary: string, phases: seq<string>,
                   tasks: seq<OnboardingTask>, suggestedMeetings: seq<string>,
                   learningResources: seq<string>): (p: OnboardingPlan)
    ensures NotEnriched(p)
    ensures p.employee == employee && p.summary == summary && p.phases == phases
    ensures p.tasks == tasks && p.suggestedMeetings == suggestedMeetings
    ensures p.learningResources == learningResources
  {
    OnboardingPlan(employee, summary, phases, tasks, suggestedMeetings, learningResources,
                   None, None, None)
  }

  /** A request carrying only its four required fields: every other field is absent. */
  function NewRequest(employeeName: string, role: string, department: string,
                      startDate: string): (r: OnboardingRequest)
    ensures r.employeeName == employeeName && r.role == role
    ensures r.department == department && r.startDate == startDate
    ensures r.level == None && r.location == None && r.workMode == None
    ensures r.managerName == None && r.language == None && r.contractType == None
    ensures r.toolsNeeded == None && r.onboardingGoals == None
    ensures r.roleContext == None && r.customNotes == None
  {
    OnboardingRequest(employeeName, role, department, startDate,
                      None, None, None, None, None, None, None, None, None, None)
  }

  /** None of the three enrichment texts is present. */
  predicate NotEnriched(p: OnboardingPlan) {
    p.welcomeEmail == None && p.managerBriefing == None && p.learningPath == None
  }

  /** All three enrichment texts are present. */
  predicate FullyEnriched(p: OnboardingPlan) {
    p.welcomeEmail.Some? && p.managerBriefing.Some? && p.learningPath.Some?
  }

  /** `p` and `q` agree on everything except the three enrichment texts. */
  predicate SameStructure(p: OnboardingPlan, q: OnboardingPlan) {
    p.employee == q.employee && p.summary == q.summary && p.phases == q.phases &&
    p.tasks == q.tasks && p.suggestedMeetings == q.suggestedMeetings &&
    p.learningResources == q.learningResources
  }
}
