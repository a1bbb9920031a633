/** The rule-based plan builder: a fixed plan of six phases and nine tasks,
    in which only some texts interpolate the employee profile.

    Long texts are written as short literals joined with `+`, and the fixed
    descriptions are kept in constants. Both are there only to keep
    verification cheap, since the solver's work grows quickly with the length
    of a string literal; each joined text is exactly the builder's text. */
module RulesEngine {
  import opened Wrappers
  import opened Text
  import opened Models

  /** The timeline's phases, in order; no task is ever placed in "month2". */
  const Phases: seq<string> := ["preboarding", "day1", "week1", "month1", "month2", "month3"]

  /** The roles that own tasks, and the channels tasks are carried out on. */
  const Owners: set<string> := {"HR", "IT", "Manager", "Employee"}
  const Channels: set<string> := {"email", "task", "meeting"}

  /** The task table, column by column, in the order the builder appends the tasks. */
  const IdColumn: seq<string> :=
    ["pre-1", "pre-2", "pre-3", "d1-1", "d1-2", "w1-1", "w1-2", "m1-1", "m3-1"]
  const PhaseColumn: seq<string> :=
    ["preboarding", "preboarding", "preboarding", "day1", "day1",
     "week1", "week1", "month1", "month3"]
  const OwnerColumn: seq<string> :=
    ["HR", "IT", "Manager", "HR", "Manager", "Manager", "Employee", "Employee", "Manager"]
  const OffsetColumn: seq<int> := [-5, -3, -2, 0, 0, 3, 5, 25, 85]
  const ChannelColumn: seq<Option<string>> :=
    [Some("email"), Some("task"), Some("email"), Some("meeting"), Some("meeting"),
     Some("meeting"), Some("task"), Some("task"), Some("meeting")]
  const TitleColumn: seq<string> := [
    "Collect legal & HR documents",
    "Prepare IT access & tools",
    "Send welcome email with " + "practical information",
    "Company & culture " + "introduction",
    "Team introduction & context",
    "Define 30-60-90 day " + "objectives",
    "Shadowing & first small " + "tasks",
    "Deliver first impactful " + "contribution",
    "3-month review & growth plan"
  ]

  /** The seven descriptions that interpolate nothing, in task order. */
  const FixedDescriptions: seq<string> := [
    "HR sends contract, " + "confidentiality agreement " + "and collects required " +
      "documents.",
    "IT prepares laptop, email, " + "VPN, project tools and " +
      "required permissions.",
    "HR presents company " + "mission, culture, values " + "and key policies.",
    "Manager and employee align " + "on expectations, " + "deliverables and success " +
      "metrics.",
    "Employee shadows teammates " + "and takes ownership of " + "low-risk tasks.",
    "Employee delivers a first " + "visible contribution " +
      "aligned with team goals.",
    "Manager and employee review " + "progress and define next " +
      "6\U{2013}12 months growth plan."
  ]

  /** The descriptions; pre-3 names the employee and d1-2 the role. */
  function DescriptionColumn(ctx: EmployeeContext): seq<string> {
    [FixedDescriptions[0], FixedDescriptions[1], Concat(WelcomeEmailTaskParts(ctx)),
     FixedDescriptions[2], Concat(TeamIntroTaskParts(ctx)), FixedDescriptions[3],
     FixedDescriptions[4], FixedDescriptions[5], FixedDescriptions[6]]
  }

  /** The pre-3 description, around the employee name. */
  function WelcomeEmailTaskParts(ctx: EmployeeContext): seq<string> {
    ["Manager sends a friendly " + "welcome email to ", ctx.employeeName,
     " with first-day logistics, " + "schedule and expectations."]
  }

  /** The d1-2 description, around the role. */
  function TeamIntroTaskParts(ctx: EmployeeContext): seq<string> {
    ["Manager introduces the " + "team, explains ongoing " + "projects and how ", ctx.role,
     " will contribute."]
  }

  /** The summary's literal pieces and interpolated fields, in order. */
  function SummaryParts(ctx: EmployeeContext): seq<string> {
    ["30-60-90 day onboarding " + "plan for ",
     ctx.employeeName,
     " as ",
     ctx.role,
     " in ",
     ctx.department,
     " at ",
     ctx.location,
     ", starting on ",
     ctx.startDate,
     ". Focus on fast " + "integration, clarity on " + "expectations, and " +
      "progressive autonomy."]
  }

  const SuggestedMeetings: seq<string> := [
    "Day-1 welcome meeting with " + "HR",
    "Day-1 team introduction " + "with manager",
    "Week-1 1:1 to define " + "30-60-90 day goals",
    "Month-3 review & growth " + "conversation"
  ]

  /** The third learning resource, around the role and the department. */
  function TechnicalOnboardingParts(ctx: EmployeeContext): seq<string> {
    ["Technical onboarding for ", ctx.role, " (", ctx.department, ")"]
  }

  function LearningResources(ctx: EmployeeContext): seq<string> {
    ["Company handbook & HR " + "policies",
     "Security & compliance " + "training",
     Concat(TechnicalOnboardingParts(ctx)),
     "Internal knowledge base / " + "documentation"]
  }

  /** Row `i` of the task table. */
  function TaskRow(ctx: EmployeeContext, i: nat): OnboardingTask
    requires i < 9
  {
    OnboardingTask(IdColumn[i], PhaseColumn[i], TitleColumn[i], DescriptionColumn(ctx)[i],
                   OwnerColumn[i], OffsetColumn[i], ChannelColumn[i])
  }

  /** The nine tasks, row by row. */
  function BaseTasks(ctx: EmployeeContext): (ts: seq<OnboardingTask>)
    ensures |ts| == 9
  {
    seq(9, i requires 0 <= i < 9 => TaskRow(ctx, i))
  }

  /** The base plan of a profile: total and deterministic. */
  function BasePlan(ctx: EmployeeContext): (plan: OnboardingPlan)
    ensures plan.employee == ctx
    ensures plan.phases == Phases && |plan.tasks| == 9
    ensures |plan.suggestedMeetings| == 4 && |plan.learningResources| == 4
    ensures NotEnriched(plan)
  {
    NewPlan(ctx, Concat(SummaryParts(ctx)), Phases, BaseTasks(ctx),
            SuggestedMeetings, LearningResources(ctx))
  }

  /** The builder as written: nine tasks appended one after another to a list. */
  method GenerateBasePlan(ctx: EmployeeContext) returns (plan: OnboardingPlan)
    ensures plan == BasePlan(ctx)
  {
    var phases := ["preboarding", "day1", "week1", "month1", "month2", "month3"];
    var summary := Concat(["30-60-90 day onboarding " + "plan for ",
      ctx.employeeName,
      " as ",
      ctx.role,
      " in ",
      ctx.department,
      " at ",
      ctx.location,
      ", starting on ",
      ctx.startDate,
      ". Focus on fast " + "integration, clarity on " + "expectations, and " +
      "progressive autonomy."]);

    var tasks: seq<OnboardingTask> := [];
    // Preboarding: HR and IT
    tasks := tasks + [OnboardingTask("pre-1", "preboarding",
      "Collect legal & HR documents",
      "HR sends contract, " + "confidentiality agreement " + "and collects required " +
      "documents.",
      "HR", -5, Some("email"))];
    tasks := tasks + [OnboardingTask("pre-2", "preboarding",
      "Prepare IT access & tools",
      "IT prepares laptop, email, " + "VPN, project tools and " +
      "required permissions.",
      "IT", -3, Some("task"))];
    tasks := tasks + [OnboardingTask("pre-3", "preboarding",
      "Send welcome email with " + "practical information",
      Concat(["Manager sends a friendly " + "welcome email to ", ctx.employeeName,
        " with first-day logistics, " + "schedule and expectations."]),
      "Manager", -2, Some("email"))];
    // Day 1: HR and Manager
    tasks := tasks + [OnboardingTask("d1-1", "day1",
      "Company & culture " + "introduction",
      "HR presents company " + "mission, culture, values " + "and key policies.",
      "HR", 0, Some("meeting"))];
    tasks := tasks + [OnboardingTask("d1-2", "day1",
      "Team introduction & context",
      Concat(["Manager introduces the " + "team, explains ongoing " + "projects and how ", ctx.role,
        " will contribute."]),
      "Manager", 0, Some("meeting"))];
    // Week 1: Manager and Employee
    tasks := tasks + [OnboardingTask("w1-1", "week1",
      "Define 30-60-90 day " + "objectives",
      "Manager and employee align " + "on expectations, " + "deliverables and success " +
      "metrics.",
      "Manager", 3, Some("meeting"))];
    tasks := tasks + [OnboardingTask("w1-2", "week1",
      "Shadowing & first small " + "tasks",
      "Employee shadows teammates " + "and takes ownership of " + "low-risk tasks.",
      "Employee", 5, Some("task"))];
    // Month 1: Employee
    tasks := tasks + [OnboardingTask("m1-1", "month1",
      "Deliver first impactful " + "contribution",
      "Employee delivers a first " + "visible contribution " +
      "aligned with team goals.",
      "Employee", 25, Some("task"))];
    // Month 3: Manager and Employee
    tasks := tasks + [OnboardingTask("m3-1", "month3",
      "3-month review & growth plan",
      "Manager and employee review " + "progress and define next " +
      "6\U{2013}12 months growth plan.",
      "Manager", 85, Some("meeting"))];

    var suggestedMeetings := [
      "Day-1 welcome meeting with " + "HR",
      "Day-1 team introduction " + "with manager",
      "Week-1 1:1 to define " + "30-60-90 day goals",
      "Month-3 review & growth " + "conversation"
    ];
    var learningResources := [
      "Company handbook & HR " + "policies",
      "Security & compliance " + "training",
      Concat(["Technical onboarding for ", ctx.role, " (", ctx.department, ")"]),
      "Internal knowledge base / " + "documentation"
    ];

    plan := NewPlan(ctx, summary, phases, tasks, suggestedMeetings, learningResources);
  }
}
