/** Properties of the base plan: the shape of its task table and which
    profile fields its texts mention.

    Each table fact is proved once, generically, for any task list carrying
    the hard-coded column, and then transferred to the base plan through
    `BasePlanColumns`. The base plan's lemmas would also hold with empty
    bodies, but the solver then unfolds the whole plan for every fact, which
    costs several times more; the transfer is there to keep them cheap. */
module BasePlanFacts {
  import opened Wrappers
  import opened Text
  import opened Models
  import opened RulesEngine

  /** The columns of a task list, in order. */
  function TaskIds(tasks: seq<OnboardingTask>): (ids: seq<string>)
    ensures |ids| == |tasks|
    ensures forall i :: 0 <= i < |tasks| ==> ids[i] == tasks[i].id
  {
    seq(|tasks|, i requires 0 <= i < |tasks| => tasks[i].id)
  }

  function TaskPhases(tasks: seq<OnboardingTask>): (phases: seq<string>)
    ensures |phases| == |tasks|
    ensures forall i :: 0 <= i < |tasks| ==> phases[i] == tasks[i].phase
  {
    seq(|tasks|, i requires 0 <= i < |tasks| => tasks[i].phase)
  }

  function DueOffsets(tasks: seq<OnboardingTask>): (offsets: seq<int>)
    ensures |offsets| == |tasks|
    ensures forall i :: 0 <= i < |tasks| ==> offsets[i] == tasks[i].dueOffsetDays
  {
    seq(|tasks|, i requires 0 <= i < |tasks| => tasks[i].dueOffsetDays)
  }

  function TaskOwners(tasks: seq<OnboardingTask>): (owners: seq<string>)
    ensures |owners| == |tasks|
    ensures forall i :: 0 <= i < |tasks| ==> owners[i] == tasks[i].owner
  {
    seq(|tasks|, i requires 0 <= i < |tasks| => tasks[i].owner)
  }

  function TaskChannels(tasks: seq<OnboardingTask>): (channels: seq<Option<string>>)
    ensures |channels| == |tasks|
    ensures forall i :: 0 <= i < |tasks| ==> channels[i] == tasks[i].channel
  {
    seq(|tasks|, i requires 0 <= i < |tasks| => tasks[i].channel)
  }

  /** Position in `Phases` of each row's phase. */
  const PhaseRanks: seq<nat> := [0, 0, 0, 1, 1, 2, 2, 3, 5]

  /** The base plan's task table has exactly these columns. */
  lemma BasePlanColumns(ctx: EmployeeContext)
    ensures TaskIds(BasePlan(ctx).tasks) == IdColumn
    ensures TaskPhases(BasePlan(ctx).tasks) == PhaseColumn
    ensures DueOffsets(BasePlan(ctx).tasks) == OffsetColumn
    ensures TaskOwners(BasePlan(ctx).tasks) == OwnerColumn
    ensures TaskChannels(BasePlan(ctx).tasks) == ChannelColumn
  {
  }

  /** No two tasks share an id. */
  predicate DistinctIds(ts: seq<OnboardingTask>) {
    forall i, j :: 0 <= i < j < |ts| ==> ts[i].id != ts[j].id
  }

  /** Every task sits in one of `phases`, and none in "month2". */
  predicate PhasesDeclared(ts: seq<OnboardingTask>, phases: seq<string>) {
    forall i :: 0 <= i < |ts| ==> ts[i].phase in phases && ts[i].phase != "month2"
  }

  /** Task `i` is in phase number `ranks[i]` of `phases`, and those numbers
      never decrease along the list. */
  predicate PhasesInOrder(ts: seq<OnboardingTask>, phases: seq<string>, ranks: seq<nat>) {
    && |ranks| == |ts|
    && (forall i :: 0 <= i < |ts| ==> ranks[i] < |phases| && phases[ranks[i]] == ts[i].phase)
    && (forall i, j :: 0 <= i <= j < |ranks| ==> ranks[i] <= ranks[j])
  }

  /** Due offsets never decrease along the list. */
  predicate OffsetsNondecreasing(ts: seq<OnboardingTask>) {
    forall i, j :: 0 <= i <= j < |ts| ==> ts[i].dueOffsetDays <= ts[j].dueOffsetDays
  }

  /** An offset is negative (before the start date) exactly for preboarding tasks. */
  predicate NegativeExactlyInPreboarding(ts: seq<OnboardingTask>) {
    forall i :: 0 <= i < |ts| ==> (ts[i].dueOffsetDays < 0 <==> ts[i].phase == "preboarding")
  }

  /** Every owner is a known role and every channel is present and known. */
  predicate OwnersAndChannelsKnown(ts: seq<OnboardingTask>) {
    && (forall i :: 0 <= i < |ts| ==> ts[i].owner in Owners)
    && (forall i :: 0 <= i < |ts| ==> ts[i].channel.Some? && ts[i].channel.value in Channels)
  }

  /** Tasks whose ids are the hard-coded column have pairwise distinct ids. */
  lemma IdColumnDistinct(ts: seq<OnboardingTask>)
    requires TaskIds(ts) == IdColumn
    ensures DistinctIds(ts)
  {
  }

  /** Tasks whose phases are the hard-coded column use declared phases other
      than "month2". */
  lemma PhaseColumnMembership(ts: seq<OnboardingTask>)
    requires TaskPhases(ts) == PhaseColumn
    ensures PhasesDeclared(ts, Phases)
  {
  }

  /** Tasks whose phases are the hard-coded column follow the timeline's order. */
  lemma PhaseColumnRanks(ts: seq<OnboardingTask>)
    requires TaskPhases(ts) == PhaseColumn
    ensures PhasesInOrder(ts, Phases, PhaseRanks)
  {
  }

  /** Tasks with the hard-coded offset and phase columns have nondecreasing
      offsets, negative exactly in preboarding. */
  lemma OffsetColumnFacts(ts: seq<OnboardingTask>)
    requires DueOffsets(ts) == OffsetColumn && TaskPhases(ts) == PhaseColumn
    ensures OffsetsNondecreasing(ts) && NegativeExactlyInPreboarding(ts)
  {
  }

  /** Tasks with the hard-coded owner and channel columns use only the known
      owners and always name a known channel. */
  lemma OwnerAndChannelColumnFacts(ts: seq<OnboardingTask>)
    requires TaskOwners(ts) == OwnerColumn && TaskChannels(ts) == ChannelColumn
    ensures OwnersAndChannelsKnown(ts)
  {
  }

  /** The nine ids are exactly these, in this order, and pairwise distinct. */
  lemma BasePlanTaskIds(ctx: EmployeeContext)
    ensures TaskIds(BasePlan(ctx).tasks) ==
            ["pre-1", "pre-2", "pre-3", "d1-1", "d1-2", "w1-1", "w1-2", "m1-1", "m3-1"]
    ensures DistinctIds(BasePlan(ctx).tasks)
  {
    var ts := BasePlan(ctx).tasks;
    assert TaskIds(ts) == IdColumn by { BasePlanColumns(ctx); }
    IdColumnDistinct(ts);
  }

  /** Every task sits in one of the plan's own phases, and none in "month2". */
  lemma BasePlanTaskPhases(ctx: EmployeeContext)
    ensures PhasesDeclared(BasePlan(ctx).tasks, BasePlan(ctx).phases)
  {
    var ts := BasePlan(ctx).tasks;
    assert TaskPhases(ts) == PhaseColumn by { BasePlanColumns(ctx); }
    PhaseColumnMembership(ts);
  }

  /** The phases of successive tasks never go back in the plan's timeline. */
  lemma BasePlanPhaseOrder(ctx: EmployeeContext)
    ensures PhasesInOrder(BasePlan(ctx).tasks, BasePlan(ctx).phases, PhaseRanks)
  {
    var ts := BasePlan(ctx).tasks;
    assert TaskPhases(ts) == PhaseColumn by { BasePlanColumns(ctx); }
    PhaseColumnRanks(ts);
  }

  /** Offsets are -5, -3, -2, 0, 0, 3, 5, 25, 85 in list order, so they never
      decrease, and an offset is negative exactly for the preboarding tasks. */
  lemma BasePlanDueOffsets(ctx: EmployeeContext)
    ensures DueOffsets(BasePlan(ctx).tasks) == [-5, -3, -2, 0, 0, 3, 5, 25, 85]
    ensures OffsetsNondecreasing(BasePlan(ctx).tasks)
    ensures NegativeExactlyInPreboarding(BasePlan(ctx).tasks)
  {
    var ts := BasePlan(ctx).tasks;
    assert DueOffsets(ts) == OffsetColumn && TaskPhases(ts) == PhaseColumn by {
      BasePlanColumns(ctx);
    }
    OffsetColumnFacts(ts);
  }

  /** Every owner is HR, IT, Manager or Employee; every channel is present and
      one of email, task or meeting. */
  lemma BasePlanOwnersAndChannels(ctx: EmployeeContext)
    ensures OwnersAndChannelsKnown(BasePlan(ctx).tasks)
  {
    var ts := BasePlan(ctx).tasks;
    assert TaskOwners(ts) == OwnerColumn && TaskChannels(ts) == ChannelColumn by {
      BasePlanColumns(ctx);
    }
    OwnerAndChannelColumnFacts(ts);
  }

  /** The summary names the employee, role, department, location and start date. */
  lemma BasePlanSummaryMentionsProfile(ctx: EmployeeContext)
    ensures var s := BasePlan(ctx).summary;
      Contains(s, ctx.employeeName) && Contains(s, ctx.role) &&
      Contains(s, ctx.department) && Contains(s, ctx.location) &&
      Contains(s, ctx.startDate)
  {
    var parts := SummaryParts(ctx);
    assert BasePlan(ctx).summary == Concat(parts);
    ContainsPart(parts, 1);
    ContainsPart(parts, 3);
    ContainsPart(parts, 5);
    ContainsPart(parts, 7);
    ContainsPart(parts, 9);
  }

  /** The welcome-email task (pre-3) names the employee. */
  lemma WelcomeEmailTaskNamesEmployee(ctx: EmployeeContext)
    ensures BasePlan(ctx).tasks[2].id == "pre-3"
    ensures Contains(BasePlan(ctx).tasks[2].description, ctx.employeeName)
  {
    assert BasePlan(ctx).tasks[2] == TaskRow(ctx, 2);
    ContainsPart(WelcomeEmailTaskParts(ctx), 1);
  }

  /** The team-introduction task (d1-2) names the role. */
  lemma TeamIntroTaskNamesRole(ctx: EmployeeContext)
    ensures BasePlan(ctx).tasks[4].id == "d1-2"
    ensures Contains(BasePlan(ctx).tasks[4].description, ctx.role)
  {
    assert BasePlan(ctx).tasks[4] == TaskRow(ctx, 4);
    ContainsPart(TeamIntroTaskParts(ctx), 1);
  }

  /** The third learning resource names the role and the department. */
  lemma TechnicalResourceNamesRoleAndDepartment(ctx: EmployeeContext)
    ensures Contains(BasePlan(ctx).learningResources[2], ctx.role)
    ensures Contains(BasePlan(ctx).learningResources[2], ctx.department)
  {
    assert BasePlan(ctx).learningResources[2] == Concat(TechnicalOnboardingParts(ctx));
    ContainsPart(TechnicalOnboardingParts(ctx), 1);
    ContainsPart(TechnicalOnboardingParts(ctx), 3);
  }

  /** Seniority and work mode never reach the base plan: two profiles that
      differ only in those give the same plan apart from the profile itself. */
  lemma BasePlanIgnoresSeniorityAndWorkMode(ctx: EmployeeContext, other: EmployeeContext)
    requires other.employeeName == ctx.employeeName && other.role == ctx.role
    requires other.department == ctx.department && other.location == ctx.location
    requires other.startDate == ctx.startDate
    ensures BasePlan(other) == BasePlan(ctx).(employee := other)
  {
  }
}
