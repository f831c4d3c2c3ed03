/** Workflow session state: what a release-planning session records, its
    step and error tracking, its dict form and its summary. Clock readings
    (`datetime.now().isoformat()`) and fresh ids (`uuid4`) are parameters. */
module Session {
  import opened Common

  /** The dict `to_dict` produces (`dataclasses.asdict`) and `from_dict`
      takes: one entry per field. */
  datatype SessionRecord = SessionRecord(
    sessionId: string,
    createdAt: string,
    updatedAt: string,
    projectKey: Option<string>,
    workflowType: string,
    roadmapFiles: seq<string>,
    orgChartFile: Option<string>,
    additionalInputs: map<string, Json>,
    roadmapData: map<string, Json>,
    orgChartData: map<string, Json>,
    jiraState: map<string, Json>,
    releasePlan: map<string, Json>,
    reviewSessionId: Option<string>,
    approvedItems: seq<string>,
    rejectedItems: seq<string>,
    modifiedItems: map<string, Json>,
    executedItems: seq<string>,
    createdReleases: seq<Json>,
    createdTickets: seq<Json>,
    executionErrors: seq<Json>,
    currentStep: string,
    completedSteps: seq<string>,
    errors: seq<string>,
    conversationHistory: seq<Json>)

  /** A fresh session's record: the given identity and the two clock
      readings (`created_at` and `updated_at` each read the clock in their
      own default factory), the dataclass defaults everywhere else. */
  function NewRecord(id: string, created: string, updated: string, projectKey: Option<string>, workflowType: string): (r: SessionRecord)
    ensures r.sessionId == id && r.createdAt == created && r.updatedAt == updated
    ensures r.projectKey == projectKey && r.workflowType == workflowType
    ensures r.currentStep == "init" && r.completedSteps == [] && r.errors == []
  {
    SessionRecord(id, created, updated, projectKey, workflowType, [], None, map[], map[], map[], map[], map[], None,
                  [], [], map[], [], [], [], [], "init", [], [], [])
  }

  /** A list after adding an entry unless already present: the completed
      steps after `mark_step_complete(step)`, and the key order of a dict
      after storing under `step`. */
  function AppendNew(steps: seq<string>, step: string): (r: seq<string>)
  {
    if step in steps then steps else steps + [step]
  }

  /** Adding keeps the list duplicate-free, records the entry, keeps every
      earlier entry in place, and adding it again changes nothing. */
  lemma AppendNewSpec(steps: seq<string>, step: string)
    requires NoDup(steps)
    ensures NoDup(AppendNew(steps, step))
    ensures step in AppendNew(steps, step)
    ensures AppendNew(steps, step)[..|steps|] == steps
    ensures AppendNew(AppendNew(steps, step), step) == AppendNew(steps, step)
    ensures forall s :: s in AppendNew(steps, step) <==> s in steps || s == step
  {
    if step !in steps {
      var r := steps + [step];
      forall i, j | 0 <= i < j < |r| ensures r[i] != r[j]
      {
        if j == |steps| {
          assert r[i] == steps[i];
        }
      }
    }
  }

  /** Marking steps one after the other, repeats included, lists each
      marked step exactly once. */
  function MarkAll(steps: seq<string>, marks: seq<string>): seq<string>
  {
    if marks == [] then steps else AppendNew(MarkAll(steps, marks[..|marks| - 1]), marks[|marks| - 1])
  }

  lemma {:induction false} MarkAllSpec(steps: seq<string>, marks: seq<string>)
    requires NoDup(steps)
    ensures NoDup(MarkAll(steps, marks))
    ensures forall s :: s in MarkAll(steps, marks) <==> s in steps || s in marks
  {
    if marks != [] {
      var init := marks[..|marks| - 1];
      MarkAllSpec(steps, init);
      AppendNewSpec(MarkAll(steps, init), marks[|marks| - 1]);
      assert marks == init + [marks[|marks| - 1]];
    }
  }

  /** The conversation entry `add_conversation` records. */
  function ConversationEntry(role: string, content: string, now: string): Json
  {
    JObj(map["role" := JStr(role), "content" := JStr(content), "timestamp" := JStr(now)])
  }

  /** `len(v)` of a dict value: lists, strings and dicts have a length,
      anything else raises `TypeError`. */
  function JsonLen(j: Json): (r: Result<nat>)
    ensures j.JList? ==> r == Ok(|j.items|)
    ensures j.JNull? || j.JBool? || j.JInt? ==> r.Err?
  {
    match j
    case JList(items) => Ok(|items|)
    case JStr(s) => Ok(|s|)
    case JObj(fields) => Ok(|fields|)
    case _ => Err("TypeError: object of type '" + TypeName(j) + "' has no len()")
  }

  datatype Summary = Summary(
    sessionId: string,
    projectKey: Option<string>,
    currentStep: string,
    completedSteps: seq<string>,
    releasesPlanned: nat,
    ticketsPlanned: Json,
    itemsApproved: nat,
    itemsExecuted: nat,
    hasErrors: bool,
    createdAt: string,
    updatedAt: string)

  /** `get_summary` of a session with this record; it raises when the
      plan's `releases` entry has no length. */
  function SummaryOf(r: SessionRecord): (s: Result<Summary>)
    ensures s.Ok? <==> JsonLen(Get(r.releasePlan, "releases", JList([]))).Ok?
    ensures s.Ok? ==> (s.value.hasErrors <==> r.errors != [])
    ensures s.Ok? ==> s.value.itemsApproved == |r.approvedItems| && s.value.itemsExecuted == |r.executedItems|
    ensures s.Ok? ==> s.value.releasesPlanned == JsonLen(Get(r.releasePlan, "releases", JList([]))).value
    ensures s.Ok? ==> s.value.ticketsPlanned == Get(r.releasePlan, "total_tickets", JInt(0))
  {
    var n := JsonLen(Get(r.releasePlan, "releases", JList([])));
    if n.Err? then Err(n.msg)
    else Ok(Summary(r.sessionId, r.projectKey, r.currentStep, r.completedSteps, n.value,
                    Get(r.releasePlan, "total_tickets", JInt(0)), |r.approvedItems|, |r.executedItems|,
                    |r.errors| > 0, r.createdAt, r.updatedAt))
  }

  /** A plan without a `releases` entry plans no releases and no tickets
      unless it says so, and a fresh session has no errors. */
  lemma SummaryOfNew(id: string, created: string, updated: string, projectKey: Option<string>, workflowType: string)
    ensures SummaryOf(NewRecord(id, created, updated, projectKey, workflowType)).Ok?
    ensures var s := SummaryOf(NewRecord(id, created, updated, projectKey, workflowType)).value;
            s.releasesPlanned == 0 && s.ticketsPlanned == JInt(0) && !s.hasErrors && s.currentStep == "init"
  {
  }

  /** `SessionState` */
  class SessionState {
    var sessionId: string
    var createdAt: string
    var updatedAt: string
    var projectKey: Option<string>
    var workflowType: string
    var roadmapFiles: seq<string>
    var orgChartFile: Option<string>
    var additionalInputs: map<string, Json>
    var roadmapData: map<string, Json>
    var orgChartData: map<string, Json>
    var jiraState: map<string, Json>
    var releasePlan: map<string, Json>
    var reviewSessionId: Option<string>
    var approvedItems: seq<string>
    var rejectedItems: seq<string>
    var modifiedItems: map<string, Json>
    var executedItems: seq<string>
    var createdReleases: seq<Json>
    var createdTickets: seq<Json>
    var executionErrors: seq<Json>
    var currentStep: string
    var completedSteps: seq<string>
    var errors: seq<string>
    var conversationHistory: seq<Json>

    /** `to_dict` */
    function ToDict(): (r: SessionRecord)
      reads this
    {
      SessionRecord(sessionId, createdAt, updatedAt, projectKey, workflowType, roadmapFiles, orgChartFile,
                    additionalInputs, roadmapData, orgChartData, jiraState, releasePlan, reviewSessionId,
                    approvedItems, rejectedItems, modifiedItems, executedItems, createdReleases, createdTickets,
                    executionErrors, currentStep, completedSteps, errors, conversationHistory)
    }

    /** `from_dict`: every field taken from the record, so that
        `from_dict(to_dict(s))` equals `s` field by field. */
    constructor FromDict(r: SessionRecord)
      ensures ToDict() == r
    {
      sessionId, createdAt, updatedAt, projectKey, workflowType := r.sessionId, r.createdAt, r.updatedAt, r.projectKey, r.workflowType;
      roadmapFiles, orgChartFile, additionalInputs := r.roadmapFiles, r.orgChartFile, r.additionalInputs;
      roadmapData, orgChartData, jiraState, releasePlan := r.roadmapData, r.orgChartData, r.jiraState, r.releasePlan;
      reviewSessionId, approvedItems, rejectedItems, modifiedItems := r.reviewSessionId, r.approvedItems, r.rejectedItems, r.modifiedItems;
      executedItems, createdReleases, createdTickets, executionErrors := r.executedItems, r.createdReleases, r.createdTickets, r.executionErrors;
      currentStep, completedSteps, errors, conversationHistory := r.currentStep, r.completedSteps, r.errors, r.conversationHistory;
    }

    /** `SessionState(project_key=..., workflow_type=...)` with a fresh id
        and the two clock readings of its timestamp factories. */
    constructor Create(id: string, created: string, updated: string, projectKey: Option<string>, workflowType: string)
      ensures ToDict() == NewRecord(id, created, updated, projectKey, workflowType)
    {
      sessionId, createdAt, updatedAt, this.projectKey, this.workflowType := id, created, updated, projectKey, workflowType;
      roadmapFiles, orgChartFile, additionalInputs := [], None, map[];
      roadmapData, orgChartData, jiraState, releasePlan := map[], map[], map[], map[];
      reviewSessionId, approvedItems, rejectedItems, modifiedItems := None, [], [], map[];
      executedItems, createdReleases, createdTickets, executionErrors := [], [], [], [];
      currentStep, completedSteps, errors, conversationHistory := "init", [], [], [];
    }

    method UpdateTimestamp(now: string)
      modifies this
      ensures ToDict() == old(ToDict()).(updatedAt := now)
    {
      updatedAt := now;
    }

    /** `mark_step_complete` */
    method MarkStepComplete(step: string, now: string)
      modifies this
      ensures ToDict() == old(ToDict()).(completedSteps := AppendNew(old(completedSteps), step), updatedAt := now)
    {
      if step !in completedSteps {
        completedSteps := completedSteps + [step];
      }
      UpdateTimestamp(now);
    }

    method SetCurrentStep(step: string, now: string)
      modifies this
      ensures ToDict() == old(ToDict()).(currentStep := step, updatedAt := now)
    {
      currentStep := step;
      UpdateTimestamp(now);
    }

    method AddError(error: string, now: string)
      modifies this
      ensures ToDict() == old(ToDict()).(errors := old(errors) + [error], updatedAt := now)
    {
      errors := errors + [error];
      UpdateTimestamp(now);
    }

    /** `add_conversation`: the entry is stamped with one clock reading and
        the update time with the next. */
    method AddConversation(role: string, content: string, stamp: string, now: string)
      modifies this
      ensures ToDict() == old(ToDict()).(conversationHistory := old(conversationHistory) + [ConversationEntry(role, content, stamp)],
                                         updatedAt := now)
    {
      conversationHistory := conversationHistory + [ConversationEntry(role, content, stamp)];
      UpdateTimestamp(now);
    }

    /** `get_summary` */
    function GetSummary(): (s: Result<Summary>)
      reads this
      ensures s == SummaryOf(ToDict())
    {
      SummaryOf(ToDict())
    }
  }
}
