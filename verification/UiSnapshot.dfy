/** `build_ui_snapshot`: the text-free UI state projected from the retained events of a run.

    Rows carry decoded envelopes: which hardware tool call a row announces, which call it
    answers, and the application event it contains. */
module UiSnapshot {
  import opened RunTypes
  import opened Sorting

  datatype Role = Supervisor | Architect | PartsSpecialist | HardwareEngineer | Reviewer | Specialist(name: Token)

  datatype PublicStatus = StCompleted | StWarning | StBlocked | StRunning | StWaiting | StOther(text: Token)

  datatype Delivery = ReleaseReady | DeliveredWithIssues | ExecutionBlocked
  {
    function Severity(): nat {
      if ReleaseReady? then 0 else if DeliveredWithIssues? then 1 else 2
    }
  }

  /** A status as text. `OfRun` is the run's own status shown in place of "not_started". */
  datatype StatusText = NotStarted | Text(text: Token) | OfRun(status: Status)

  /** Canonical pipeline steps are numbered from 1. */
  datatype StepId = Canonical(index: int) | OtherStep(name: Token)

  const CANONICAL_STEPS: nat := 17

  datatype Phase = Phase(name: Token) | StepPhase(step: StepId) | ArtifactPublish

  /** The step fields of an event, each present or not. */
  datatype Steps = Steps(id: Option<StepId>, index: Option<int>, total: Option<int>, completed: Option<int>)

  /** What the detail text says: "step 3/17", "3/17 steps", or neither. */
  datatype Detail = NoCount | StepOf(index: nat, total: nat) | StepsDone(done: nat, total: nat)

  datatype Manifest = Manifest(
    id: Option<Token>, delivery: Option<Delivery>, statusText: StatusText, errors: seq<Token>,
    artifacts: seq<Token>, occurredAt: Option<Token>)

  /** `workflow` tells workflow events from model output. `named` and `engineer` say whether the
      phase or event type marks a pipeline event and whether the phase is the hardware
      engineer's; `blocked` whether the status is one of the blocked ones. */
  datatype AppEvent =
    | Published(manifest: Manifest)
    | Work(workflow: bool, role: Option<Role>, phase: Option<Token>, status: StatusText, public: PublicStatus,
           blocked: bool, shownDetail: Option<Token>, report: Option<Token>, occurredAt: Option<Token>,
           named: bool, engineer: bool, steps: Steps, detail: Detail)
    | Foreign

  /** The parsed answer of the hardware tool: its event, outcome and errors. */
  datatype ToolResult = ToolResult(call: Token, event: AppEvent, delivery: Option<Delivery>, errors: seq<Token>)

  datatype Envelope = Envelope(announces: Option<Token>, answers: Option<ToolResult>, app: Option<AppEvent>)

  /** `envelope` is None when the payload holds no JSON object. */
  datatype Row = Row(id: nat, envelope: Option<Envelope>)

  datatype RoleStatus = RoleStatus(status: PublicStatus, phase: Option<Token>, lastEventId: Option<nat>)

  datatype Pipeline = Pipeline(status: StatusText, steps: Steps)

  datatype RecentKind = ManifestEntry | PipelineStep | LlmOutput | Workflow

  datatype Recent = Recent(
    id: nat, kind: RecentKind, role: Option<Role>, phase: Option<Phase>, status: StatusText,
    detail: Option<Token>, occurredAt: Option<Token>, stepIndex: Option<int>, totalSteps: Option<int>)

  /** The accumulators of the loop over the rows. */
  datatype View = View(
    roles: map<Role, RoleStatus>,
    currentRole: Option<Role>,
    currentPhase: Option<Phase>,
    pipeline: Pipeline,
    reviewer: RoleStatus,
    report: Option<Token>,
    recent: seq<Recent>,
    manifest: Option<Manifest>,
    toolDelivery: Option<Delivery>,
    toolErrors: seq<Token>,
    pending: Option<(Token, nat)>)

  const UNSEEN: RoleStatus := RoleStatus(StWaiting, None, None)
  const NO_STEPS: Steps := Steps(None, None, None, None)

  const START: View := View(
    map[Supervisor := UNSEEN, Architect := UNSEEN, PartsSpecialist := UNSEEN,
        HardwareEngineer := UNSEEN, Reviewer := UNSEEN],
    None, None, Pipeline(NotStarted, NO_STEPS), UNSEEN, None, [], None, None, [], None)

  // ----- one row

  /** The tool answer that counts: directly behind the call it answers. */
  function ToolAnswer(pending: Option<(Token, nat)>, row: Row): Option<ToolResult> {
    if row.envelope.Some? && pending.Some? && row.id == pending.value.1 + 1
       && row.envelope.value.answers.Some? && row.envelope.value.answers.value.call == pending.value.0
    then row.envelope.value.answers else None
  }

  function EventOf(pending: Option<(Token, nat)>, row: Row): Option<AppEvent> {
    if row.envelope.None? then None
    else if ToolAnswer(pending, row).Some? then Some(ToolAnswer(pending, row).value.event)
    else row.envelope.value.app
  }

  function PendingAfter(row: Row): Option<(Token, nat)> {
    if row.envelope.Some? && row.envelope.value.announces.Some?
    then Some((row.envelope.value.announces.value, row.id)) else None
  }

  function Else<T>(a: Option<T>, b: Option<T>): Option<T> {
    if a.Some? then a else b
  }

  predicate IsPipeline(e: AppEvent)
    requires e.Work?
  {
    e.named || (e.engineer && e.detail.StepsDone?)
  }

  /** The step fields of a pipeline event, completed from its detail text. */
  function Derived(e: AppEvent): Steps
    requires e.Work?
  {
    var s := e.steps;
    var s1 := if (s.index.None? || s.total.None?) && e.detail.StepOf?
              then s.(index := Some(e.detail.index), total := Some(e.detail.total)) else s;
    var s2 := if !e.detail.StepsDone? then s1
              else
                var done, total := e.detail.done, e.detail.total;
                s1.(completed := Some(done), total := Some(total),
                    index := if s1.index.Some? || done == 0 then s1.index
                             else Some(if e.blocked && done < total then done + 1 else done));
    if s2.id.None? && s2.index.Some? && 1 <= s2.index.value <= CANONICAL_STEPS
    then s2.(id := Some(Canonical(s2.index.value))) else s2
  }

  function UpdatePipeline(p: Pipeline, status: StatusText, s: Steps): Pipeline {
    Pipeline(status, Steps(Else(s.id, p.steps.id), Else(s.index, p.steps.index),
                           Else(s.total, p.steps.total), Else(s.completed, p.steps.completed)))
  }

  function RecentManifest(id: nat, m: Manifest): Recent {
    Recent(id, ManifestEntry, Some(Supervisor), Some(ArtifactPublish), m.statusText, None, m.occurredAt, None, None)
  }

  function RecentWork(id: nat, e: AppEvent): Recent
    requires e.Work?
  {
    var s := if IsPipeline(e) then Derived(e) else e.steps;
    Recent(id, if IsPipeline(e) then PipelineStep else if e.workflow then Workflow else LlmOutput,
           e.role, if e.phase.Some? then Some(Phase(e.phase.value)) else None, e.status,
           if e.workflow then e.shownDetail else None, e.occurredAt, s.index, s.total)
  }

  function ApplyEvent(v: View, id: nat, e: AppEvent): View {
    match e
    case Published(m) => v.(manifest := Some(m), recent := v.recent + [RecentManifest(id, m)])
    case Foreign => v
    case Work(_, _, _, _, _, _, _, _, _, _, _, _, _) =>
      var now := RoleStatus(e.public, e.phase, Some(id));
      var v1 := v.(currentRole := Else(e.role, v.currentRole),
                   currentPhase := if e.phase.Some? then Some(Phase(e.phase.value)) else v.currentPhase);
      var v2 := if e.workflow && e.role.Some? then v1.(roles := v1.roles[e.role.value := now]) else v1;
      var v3 := if e.workflow && e.role == Some(Reviewer)
                then v2.(reviewer := now, report := Else(e.report, v2.report)) else v2;
      var v4 := if IsPipeline(e)
                then
                  var step := Derived(e).id;
                  v3.(pipeline := UpdatePipeline(v3.pipeline, e.status, Derived(e)),
                      currentPhase := if step.Some? then Some(StepPhase(step.value)) else v3.currentPhase)
                else v3;
      v4.(recent := v4.recent + [RecentWork(id, e)])
  }

  function ApplyRow(v: View, row: Row): View {
    var answer, event := ToolAnswer(v.pending, row), EventOf(v.pending, row);
    var v1 := v.(pending := PendingAfter(row));
    var v2 := if answer.Some?
              then v1.(toolDelivery := Else(answer.value.delivery, v1.toolDelivery),
                       toolErrors := v1.toolErrors + answer.value.errors)
              else v1;
    if event.Some? then ApplyEvent(v2, row.id, event.value) else v2
  }

  function Project(rows: seq<Row>): View {
    if rows == [] then START else ApplyRow(Project(rows[..|rows| - 1]), rows[|rows| - 1])
  }

  // ----- the whole projection

  datatype Request = Request(
    cursor: nat, runStatus: Status, manifest: Option<Manifest>, delivery: Option<Delivery>, limit: int)

  datatype Summary = Summary(
    status: Option<Delivery>, manifestId: Option<Token>, artifacts: seq<Token>, errors: seq<Token>)

  datatype Ui = Ui(
    cursor: nat, coverageStart: Option<nat>, coverageComplete: bool,
    currentRole: Option<Role>, currentPhase: Option<Phase>, roles: map<Role, RoleStatus>,
    pipeline: Pipeline, recent: seq<Recent>, delivery: Summary, reviewer: RoleStatus, report: Option<Token>)

  function Upto(rows: seq<Row>, cursor: nat): seq<Row> {
    if rows == [] then []
    else Upto(rows[..|rows| - 1], cursor) + if rows[|rows| - 1].id <= cursor then [rows[|rows| - 1]] else []
  }

  function RowKey(r: Row): SortKey {
    (r.id, 0, 0)
  }

  function Last<T>(s: seq<T>, limit: int): seq<T> {
    var n := if limit < 1 then 1 else limit;
    if |s| <= n then s else s[|s| - n..]
  }

  /** `_delivery_status`: the most severe of the values that are present. */
  function Worst(values: seq<Option<Delivery>>): Option<Delivery> {
    if values == [] then None
    else
      var before, last := Worst(values[..|values| - 1]), values[|values| - 1];
      if last.None? || (before.Some? && before.value.Severity() >= last.value.Severity()) then before else last
  }

  /** `list(dict.fromkeys(s))` */
  function Unique(s: seq<Token>): seq<Token> {
    if s == [] then []
    else
      var front, x := s[..|s| - 1], s[|s| - 1];
      Unique(front) + if x in front then [] else [x]
  }

  function Chosen(v: View, q: Request): Option<Manifest> {
    Else(q.manifest, v.manifest)
  }

  function Summarize(v: View, q: Request): Summary {
    var m := Chosen(v, q);
    Summary(Worst([q.delivery, if m.Some? then m.value.delivery else None, v.toolDelivery]),
            if m.Some? then m.value.id else None,
            if m.Some? then m.value.artifacts else [],
            Unique((if m.Some? then m.value.errors else []) + v.toolErrors))
  }

  /** A terminal run with a manifest closes a supervisor that is still running. */
  predicate Closes(v: View, q: Request) {
    q.runStatus.Terminal() && Chosen(v, q).Some?
  }

  function Shown(role: Role, st: RoleStatus, closes: bool): RoleStatus {
    if role == Supervisor && closes && st.status == StRunning then st.(status := StCompleted) else st
  }

  function ClosedRoles(v: View, q: Request): map<Role, RoleStatus> {
    map role | role in v.roles :: Shown(role, v.roles[role], Closes(v, q))
  }

  function ClosedPipeline(p: Pipeline, runStatus: Status): Pipeline {
    if runStatus.Terminal() && p.status == NotStarted then p.(status := OfRun(runStatus)) else p
  }

  function Present(v: View, ordered: seq<Row>, q: Request): Ui {
    var start := if ordered == [] then None else Some(ordered[0].id);
    Ui(q.cursor, start, q.cursor == 0 || start == Some(1), v.currentRole, v.currentPhase,
       ClosedRoles(v, q), ClosedPipeline(v.pipeline, q.runStatus), Last(v.recent, q.limit), Summarize(v, q),
       v.reviewer, v.report)
  }

  function Snapshot(rows: seq<Row>, q: Request): Ui {
    var ordered := Sorted(Upto(rows, q.cursor), RowKey);
    Present(Project(ordered), ordered, q)
  }

  /** The loop of `build_ui_snapshot`, updating its accumulators row by row. */
  method BuildUiSnapshot(rows: seq<Row>, q: Request) returns (ui: Ui)
    ensures ui == Snapshot(rows, q)
  {
    hide Sorted, Upto, EventOf, ToolAnswer, ApplyEvent, Summarize, Worst, Unique;
    var ordered := Sorted(Upto(rows, q.cursor), RowKey);
    var view := START;
    for n := 0 to |ordered|
      invariant view == Project(ordered[..n])
    {
      assert ordered[..n + 1][..n] == ordered[..n];
      var row := ordered[n];
      var prior := view.pending;
      view := view.(pending := PendingAfter(row));
      var answer, event := ToolAnswer(prior, row), EventOf(prior, row);
      if answer.Some? {
        view := view.(toolDelivery := Else(answer.value.delivery, view.toolDelivery));
        view := view.(toolErrors := view.toolErrors + answer.value.errors);
      }
      if event.Some? { view := ApplyEvent(view, row.id, event.value); }
    }
    assert ordered[..|ordered|] == ordered;
    var roles, pipeline := view.roles, view.pipeline;
    if q.runStatus.Terminal() {
      if pipeline.status == NotStarted { pipeline := pipeline.(status := OfRun(q.runStatus)); }
      if Chosen(view, q).Some? && Supervisor in roles && roles[Supervisor].status == StRunning {
        roles := roles[Supervisor := roles[Supervisor].(status := StCompleted)];
      }
    }
    assert roles == ClosedRoles(view, q);
    var start := if ordered == [] then None else Some(ordered[0].id);
    ui := Ui(q.cursor, start, q.cursor == 0 || start == Some(1), view.currentRole, view.currentPhase,
             roles, pipeline, Last(view.recent, q.limit), Summarize(view, q), view.reviewer, view.report);
  }

  // ----- the delivery summary

  /** None only if nothing is present; otherwise one of the values present, and none is worse. */
  lemma {:induction false} WorstMeans(values: seq<Option<Delivery>>)
    ensures Worst(values).None? <==> forall x :: x in values ==> x.None?
    ensures Worst(values).Some? ==> Worst(values) in values
    ensures Worst(values).Some? ==>
              forall x :: x in values && x.Some? ==> x.value.Severity() <= Worst(values).value.Severity()
  {
    if values == [] {
    } else {
      WorstMeans(values[..|values| - 1]);
      assert values == values[..|values| - 1] + [values[|values| - 1]];
    }
  }

  /** A blocked execution outweighs everything, and only if all agree is the delivery ready. */
  lemma WorstOrder(values: seq<Option<Delivery>>)
    ensures Some(ExecutionBlocked) in values ==> Worst(values) == Some(ExecutionBlocked)
    ensures Some(ExecutionBlocked) !in values && Some(DeliveredWithIssues) in values ==>
              Worst(values) == Some(DeliveredWithIssues)
    ensures Worst(values) == Some(ReleaseReady) ==> forall x :: x in values && x.Some? ==> x == Some(ReleaseReady)
  {
    hide Worst;
    WorstMeans(values);
  }

  /** Every error once, in the order of first occurrence. */
  lemma {:induction false} UniqueMeans(s: seq<Token>)
    ensures forall x :: x in Unique(s) <==> x in s
    ensures forall i, j :: 0 <= i < j < |Unique(s)| ==> Unique(s)[i] != Unique(s)[j]
    ensures forall i, j :: 0 <= i < j < |Unique(s)| ==> FirstAt(s, Unique(s)[i]) < FirstAt(s, Unique(s)[j])
  {
    if s == [] {
    } else {
      var front, x := s[..|s| - 1], s[|s| - 1];
      UniqueMeans(front);
      assert s == front + [x];
      forall y | y in front ensures FirstAt(s, y) == FirstAt(front, y) < |front| { FirstAtPrefix(front, x, y); }
      if x !in front { FirstAtPrefix(front, x, x); }
      assert forall i :: 0 <= i < |Unique(front)| ==> Unique(front)[i] in Unique(front);
    }
  }

  /** Where `x` first occurs, or the length. */
  function FirstAt(s: seq<Token>, x: Token): nat {
    if s == [] then 0
    else if x in s[..|s| - 1] then FirstAt(s[..|s| - 1], x)
    else if s[|s| - 1] == x then |s| - 1 else |s|
  }

  lemma FirstAtPrefix(front: seq<Token>, x: Token, y: Token)
    ensures y in front ==> FirstAt(front + [x], y) == FirstAt(front, y) < |front|
    ensures y !in front && x == y ==> FirstAt(front + [x], y) == |front|
  {
    assert (front + [x])[..|front|] == front;
    if y in front { FirstAtBound(front, y); }
  }

  lemma {:induction false} FirstAtBound(s: seq<Token>, x: Token)
    requires x in s
    ensures FirstAt(s, x) < |s| && s[FirstAt(s, x)] == x
  {
    if x in s[..|s| - 1] { FirstAtBound(s[..|s| - 1], x); }
  }

  // ----- what a role shows

  /** What row i of the log says, read with the row before it. */
  function EventAt(rows: seq<Row>, i: nat): Option<AppEvent>
    requires i < |rows|
  {
    EventOf(if i == 0 then None else PendingAfter(rows[i - 1]), rows[i])
  }

  predicate Moves(e: Option<AppEvent>, role: Role) {
    e.Some? && e.value.Work? && e.value.workflow && e.value.role == Some(role)
  }

  function StatusOf(e: Option<AppEvent>, id: nat): RoleStatus
    requires e.Some? && e.value.Work?
  {
    RoleStatus(e.value.public, e.value.phase, Some(id))
  }

  /** Row i of the log is a workflow event of `role`. */
  predicate WorkflowEventAt(rows: seq<Row>, i: nat, role: Role)
    requires i < |rows|
  {
    Moves(EventAt(rows, i), role)
  }

  /** `role` has a workflow event in rows[from..to]. */
  predicate ActiveIn(rows: seq<Row>, from: nat, to: nat, role: Role)
    requires to <= |rows|
  {
    exists i :: from <= i < to && WorkflowEventAt(rows, i, role)
  }

  predicate LastEvent(rows: seq<Row>, i: nat, role: Role) {
    i < |rows| && WorkflowEventAt(rows, i, role) && !ActiveIn(rows, i + 1, |rows|, role)
  }

  lemma PendingIsLocal(rows: seq<Row>)
    requires rows != []
    ensures Project(rows).pending == PendingAfter(rows[|rows| - 1])
  {
    hide EventOf, ToolAnswer, PendingAfter, UpdatePipeline, Derived, IsPipeline, RecentWork;
  }

  predicate SameRole(a: map<Role, RoleStatus>, b: map<Role, RoleStatus>, role: Role) {
    (role in a <==> role in b) && (role in a ==> a[role] == b[role])
  }

  /** The same event updates the same role to the same status, whatever came before. */
  lemma RoleUpdate(v: View, row: Row, role: Role)
    ensures var e, after := EventOf(v.pending, row), ApplyRow(v, row);
            if Moves(e, role) then role in after.roles && after.roles[role] == StatusOf(e, row.id)
            else SameRole(after.roles, v.roles, role)
  {
    hide EventOf, ToolAnswer, PendingAfter, UpdatePipeline, Derived, IsPipeline, RecentWork;
  }

  lemma ProjectNone()
    ensures Project([]) == START && START.pending == None
  {
  }

  lemma RowUpdates(rows: seq<Row>, i: nat, role: Role)
    requires i < |rows|
    ensures var before, after := Project(rows[..i]), Project(rows[..i + 1]);
            if WorkflowEventAt(rows, i, role)
            then role in after.roles && after.roles[role] == StatusOf(EventAt(rows, i), rows[i].id)
            else SameRole(after.roles, before.roles, role)
  {
    hide EventOf, ApplyRow, PendingAfter, Moves;
    assert rows[..i + 1][..i] == rows[..i];
    if i > 0 { PendingIsLocal(rows[..i]); } else { assert rows[..0] == []; ProjectNone(); }
    RoleUpdate(Project(rows[..i]), rows[i], role);
  }

  lemma {:induction false} ShowsLastEventUpto(rows: seq<Row>, i: nat, m: nat, role: Role)
    requires i < m <= |rows| && WorkflowEventAt(rows, i, role) && !ActiveIn(rows, i + 1, m, role)
    ensures role in Project(rows[..m]).roles
    ensures Project(rows[..m]).roles[role] == StatusOf(EventAt(rows, i), rows[i].id)
    decreases m
  {
    hide EventAt, Project, Moves;
    RowUpdates(rows, m - 1, role);
    if i < m - 1 {
      assert !WorkflowEventAt(rows, m - 1, role);
      ShowsLastEventUpto(rows, i, m - 1, role);
    }
  }

  /** Declarative meaning: a role shows its last workflow event. */
  lemma RoleShowsLastEvent(rows: seq<Row>, i: nat, role: Role)
    requires LastEvent(rows, i, role)
    ensures role in Project(rows).roles
    ensures Project(rows).roles[role] == StatusOf(EventAt(rows, i), rows[i].id)
  {
    hide EventAt, Project, Moves, ActiveIn;
    ShowsLastEventUpto(rows, i, |rows|, role);
    assert rows[..|rows|] == rows;
  }

  lemma {:induction false} SilentUpto(rows: seq<Row>, m: nat, role: Role)
    requires m <= |rows| && !ActiveIn(rows, 0, m, role)
    ensures SameRole(Project(rows[..m]).roles, START.roles, role)
  {
    hide EventAt, Project, Moves;
    if m == 0 {
      assert rows[..0] == [];
      ProjectNone();
    } else {
      assert !WorkflowEventAt(rows, m - 1, role);
      RowUpdates(rows, m - 1, role);
      SilentUpto(rows, m - 1, role);
    }
  }

  /** A role without a workflow event is waiting if it is a standard one, and absent otherwise. */
  lemma SilentRoleIsWaiting(rows: seq<Row>, role: Role)
    requires !ActiveIn(rows, 0, |rows|, role)
    ensures SameRole(Project(rows).roles, START.roles, role)
  {
    hide EventAt, Project, Moves, ActiveIn;
    SilentUpto(rows, |rows|, role);
    assert rows[..|rows|] == rows;
  }

  /** Some row publishes a manifest. */
  predicate ManifestIn(rows: seq<Row>) {
    exists i :: 0 <= i < |rows| && Publishes(EventAt(rows, i))
  }

  predicate Publishes(e: Option<AppEvent>) {
    e.Some? && e.value.Published?
  }

  lemma ManifestUpdate(v: View, row: Row)
    ensures ApplyRow(v, row).manifest.Some? <==> v.manifest.Some? || Publishes(EventOf(v.pending, row))
  {
    hide EventOf, ToolAnswer, PendingAfter, UpdatePipeline, Derived, IsPipeline, RecentWork;
  }

  lemma {:induction false} ManifestUpto(rows: seq<Row>, m: nat)
    requires m <= |rows|
    ensures Project(rows[..m]).manifest.Some? <==> exists i :: 0 <= i < m && Publishes(EventAt(rows, i))
  {
    hide EventOf, ApplyRow, PendingAfter, Publishes;
    if m == 0 {
      assert rows[..0] == [];
    } else {
      var i := m - 1;
      ManifestUpto(rows, i);
      assert rows[..m][..i] == rows[..i];
      if i > 0 { PendingIsLocal(rows[..i]); } else { assert rows[..0] == []; ProjectNone(); }
      ManifestUpdate(Project(rows[..i]), rows[i]);
      assert Publishes(EventOf(Project(rows[..i]).pending, rows[i])) == Publishes(EventAt(rows, i));
    }
  }

  /** A terminal run closes its supervisor exactly when a manifest is passed in or published. */
  predicate ClosesLog(rows: seq<Row>, q: Request) {
    q.runStatus.Terminal() && (q.manifest.Some? || ManifestIn(rows))
  }

  lemma ClosesMeans(rows: seq<Row>, q: Request)
    ensures Closes(Project(rows), q) <==> ClosesLog(rows, q)
  {
    hide EventAt, Project, Publishes;
    ManifestUpto(rows, |rows|);
    assert rows[..|rows|] == rows;
  }

  // ----- what everything else shows

  /** The last event of the first m rows that carries a value, and that value. */
  function Latest<T>(rows: seq<Row>, m: nat, carries: Option<AppEvent> -> Option<T>): Option<T>
    requires m <= |rows|
  {
    if m == 0 then None
    else
      var x := carries(EventAt(rows, m - 1));
      if x.Some? then x else Latest(rows, m - 1, carries)
  }

  lemma {:induction false} LatestMeans<T>(rows: seq<Row>, m: nat, carries: Option<AppEvent> -> Option<T>, i: nat)
    requires i < m <= |rows| && carries(EventAt(rows, i)).Some?
    requires forall j :: i < j < m ==> carries(EventAt(rows, j)).None?
    ensures Latest(rows, m, carries) == carries(EventAt(rows, i))
    decreases m
  {
    if i == m - 1 {
    } else {
      LatestMeans(rows, m - 1, carries, i);
    }
  }

  lemma {:induction false} LatestNone<T>(rows: seq<Row>, m: nat, carries: Option<AppEvent> -> Option<T>)
    requires m <= |rows| && forall j :: 0 <= j < m ==> carries(EventAt(rows, j)).None?
    ensures Latest(rows, m, carries) == None
  {
    if m == 0 {
    } else {
      LatestNone(rows, m - 1, carries);
    }
  }

  predicate OfPipeline(e: Option<AppEvent>) {
    e.Some? && e.value.Work? && (e.value.named || (e.value.engineer && e.value.detail.StepsDone?))
  }

  /** What an event says about each field, if anything. */
  function ToldStatus(e: Option<AppEvent>): Option<StatusText> {
    if OfPipeline(e) then Some(e.value.status) else None
  }

  function ToldStep(e: Option<AppEvent>): Option<StepId> {
    if OfPipeline(e) then Derived(e.value).id else None
  }

  function ToldIndex(e: Option<AppEvent>): Option<int> {
    if OfPipeline(e) then Derived(e.value).index else None
  }

  function ToldTotal(e: Option<AppEvent>): Option<int> {
    if OfPipeline(e) then Derived(e.value).total else None
  }

  function ToldCompleted(e: Option<AppEvent>): Option<int> {
    if OfPipeline(e) then Derived(e.value).completed else None
  }

  function ToldRole(e: Option<AppEvent>): Option<Role> {
    if e.Some? && e.value.Work? then e.value.role else None
  }

  function ToldPhase(e: Option<AppEvent>): Option<Phase> {
    if ToldStep(e).Some? then Some(StepPhase(ToldStep(e).value))
    else if e.Some? && e.value.Work? && e.value.phase.Some? then Some(Phase(e.value.phase.value))
    else None
  }

  function ToldReport(e: Option<AppEvent>): Option<Token> {
    if Moves(e, Reviewer) then e.value.report else None
  }

  function ToldManifest(e: Option<AppEvent>): Option<Manifest> {
    if Publishes(e) then Some(e.value.manifest) else None
  }

  function LatestStatus(rows: seq<Row>, m: nat): StatusText
    requires m <= |rows|
  {
    var told := Latest(rows, m, ToldStatus);
    if told.Some? then told.value else NotStarted
  }

  /** Each figure is that of the last pipeline event that carries it. */
  function LatestSteps(rows: seq<Row>, m: nat): Steps
    requires m <= |rows|
  {
    Steps(Latest(rows, m, ToldStep), Latest(rows, m, ToldIndex), Latest(rows, m, ToldTotal),
          Latest(rows, m, ToldCompleted))
  }

  /** Each field after a row is what its event says, or else what it was. */
  lemma PipelineUpdate(v: View, row: Row)
    ensures var e, p, p' := EventOf(v.pending, row), v.pipeline, ApplyRow(v, row).pipeline;
            && p'.status == (if ToldStatus(e).Some? then ToldStatus(e).value else p.status)
            && p'.steps.id == Else(ToldStep(e), p.steps.id)
            && p'.steps.index == Else(ToldIndex(e), p.steps.index)
            && p'.steps.total == Else(ToldTotal(e), p.steps.total)
            && p'.steps.completed == Else(ToldCompleted(e), p.steps.completed)
  {
    hide EventOf, ToolAnswer, PendingAfter, RecentWork, RecentManifest, Derived;
  }

  lemma FieldUpdate(v: View, row: Row)
    ensures var e, after := EventOf(v.pending, row), ApplyRow(v, row);
            && after.currentRole == Else(ToldRole(e), v.currentRole)
            && after.currentPhase == Else(ToldPhase(e), v.currentPhase)
  {
    hide EventOf, ToolAnswer, PendingAfter, RecentWork, RecentManifest, Derived, UpdatePipeline;
  }

  lemma PaperUpdate(v: View, row: Row)
    ensures var e, after := EventOf(v.pending, row), ApplyRow(v, row);
            && after.report == Else(ToldReport(e), v.report)
            && after.manifest == Else(ToldManifest(e), v.manifest)
  {
    hide EventOf, ToolAnswer, PendingAfter, RecentWork, RecentManifest, Derived, UpdatePipeline, IsPipeline;
  }

  /** Pipeline status and figures, current role and phase, report and manifest are each those of the
      last event that carries one. */
  lemma {:induction false} FieldsUpto(rows: seq<Row>, m: nat)
    requires m <= |rows|
    ensures var v := Project(rows[..m]);
            && v.pipeline.status == LatestStatus(rows, m)
            && v.pipeline.steps == LatestSteps(rows, m)
            && v.currentRole == Latest(rows, m, ToldRole) && v.currentPhase == Latest(rows, m, ToldPhase)
            && v.report == Latest(rows, m, ToldReport) && v.manifest == Latest(rows, m, ToldManifest)
  {
    hide EventAt, ApplyRow, ToldStatus, ToldStep, ToldIndex, ToldTotal, ToldCompleted, ToldRole, ToldPhase,
         ToldReport, ToldManifest;
    if m == 0 {
      assert rows[..0] == [];
    } else {
      FieldsUpto(rows, m - 1);
      assert rows[..m][..m - 1] == rows[..m - 1];
      PipelineUpdate(Project(rows[..m - 1]), rows[m - 1]);
      FieldUpdate(Project(rows[..m - 1]), rows[m - 1]);
      PaperUpdate(Project(rows[..m - 1]), rows[m - 1]);
      SameEvent(rows, m - 1);
    }
  }

  /** What the loop takes a row to say depends on the row before it alone. */
  lemma SameEvent(rows: seq<Row>, i: nat)
    requires i < |rows|
    ensures EventOf(Project(rows[..i]).pending, rows[i]) == EventAt(rows, i)
  {
    hide EventOf, PendingAfter;
    if i > 0 { PendingIsLocal(rows[..i]); } else { assert rows[..0] == []; ProjectNone(); }
  }

  /** The reviewer's own entry is the reviewer's role. */
  lemma {:induction false} ReviewerIsRole(rows: seq<Row>)
    ensures Reviewer in Project(rows).roles && Project(rows).reviewer == Project(rows).roles[Reviewer]
  {
    if rows == [] {
    } else {
      ReviewerIsRole(rows[..|rows| - 1]);
      ReviewerStep(Project(rows[..|rows| - 1]), rows[|rows| - 1]);
    }
  }

  lemma ReviewerStep(v: View, row: Row)
    requires Reviewer in v.roles && v.reviewer == v.roles[Reviewer]
    ensures var w := ApplyRow(v, row); Reviewer in w.roles && w.reviewer == w.roles[Reviewer]
  {
    hide EventOf, ToolAnswer, PendingAfter, UpdatePipeline, Derived, IsPipeline, RecentWork;
  }

  // ----- the figures of a pipeline event

  /** Explicit figures count; "step i/n" fills both in if one is missing; "d/n steps" sets completed
      and total, and stands for step d, or the one after it if the pipeline is blocked before its
      end; a step without a name gets the canonical name of its number. */
  lemma DerivedMeans(e: AppEvent)
    requires e.Work?
    ensures var s, d := e.steps, Derived(e);
            && (e.detail == NoCount ==> d.index == s.index && d.total == s.total && d.completed == s.completed)
            && (e.detail.StepOf? ==>
                  && d.completed == s.completed
                  && (if s.index.Some? && s.total.Some? then d.index == s.index && d.total == s.total
                      else d.index == Some(e.detail.index) && d.total == Some(e.detail.total)))
            && (e.detail.StepsDone? ==>
                  && d.completed == Some(e.detail.done) && d.total == Some(e.detail.total)
                  && (s.index.Some? ==> d.index == s.index)
                  && (s.index.None? && e.detail.done == 0 ==> d.index == None)
                  && (s.index.None? && e.detail.done > 0 ==>
                        d.index == Some(e.detail.done + if e.blocked && e.detail.done < e.detail.total then 1 else 0)))
            && (s.id.Some? ==> d.id == s.id)
            && (s.id.None? ==>
                  d.id == if d.index.Some? && 1 <= d.index.value <= 17 then Some(Canonical(d.index.value)) else None)
  {
  }

  // ----- recent events

  predicate Listed(e: Option<AppEvent>) {
    e.Some? && (e.value.Work? || e.value.Published?)
  }

  /** The entry that row i adds to the recent events. */
  predicate Entry(x: Recent, rows: seq<Row>, i: nat)
    requires i < |rows|
  {
    var e := EventAt(rows, i);
    && Listed(e) && x.id == rows[i].id
    && (e.value.Published? ==>
          && x.kind == ManifestEntry && x.role == Some(Supervisor) && x.phase == Some(ArtifactPublish)
          && x.status == e.value.manifest.statusText && x.occurredAt == e.value.manifest.occurredAt
          && x.detail == None && x.stepIndex == None && x.totalSteps == None)
    && (e.value.Work? ==>
          && x.kind == (if OfPipeline(e) then PipelineStep else if e.value.workflow then Workflow else LlmOutput)
          && x.role == e.value.role && x.status == e.value.status && x.occurredAt == e.value.occurredAt
          && x.phase == (if e.value.phase.Some? then Some(Phase(e.value.phase.value)) else None)
          && x.detail == (if e.value.workflow then e.value.shownDetail else None)
          && x.stepIndex == (if OfPipeline(e) then ToldIndex(e) else e.value.steps.index)
          && x.totalSteps == (if OfPipeline(e) then ToldTotal(e) else e.value.steps.total))
  }

  /** How many of the first m rows are listed. */
  function ListedCount(rows: seq<Row>, m: nat): nat
    requires m <= |rows|
  {
    if m == 0 then 0 else ListedCount(rows, m - 1) + if Listed(EventAt(rows, m - 1)) then 1 else 0
  }

  lemma RecentUpdate(v: View, rows: seq<Row>, i: nat)
    requires i < |rows| && EventOf(v.pending, rows[i]) == EventAt(rows, i)
    ensures var after := ApplyRow(v, rows[i]).recent;
            if Listed(EventAt(rows, i))
            then |after| == |v.recent| + 1 && after[..|v.recent|] == v.recent && Entry(after[|v.recent|], rows, i)
            else after == v.recent
  {
    hide EventOf, EventAt, ToolAnswer, PendingAfter, UpdatePipeline, Derived;
  }

  /** Every listed row adds its entry, in order: the entry of row i stands behind those of the listed
      rows before it. */
  lemma {:induction false} RecentMeans(rows: seq<Row>, m: nat)
    requires m <= |rows|
    ensures |Project(rows[..m]).recent| == ListedCount(rows, m)
    ensures forall i :: 0 <= i < m && Listed(EventAt(rows, i)) ==>
              ListedCount(rows, i) < |Project(rows[..m]).recent|
              && Entry(Project(rows[..m]).recent[ListedCount(rows, i)], rows, i)
  {
    hide EventAt, ApplyRow, Entry, Listed;
    if m == 0 {
      assert rows[..0] == [];
    } else {
      RecentMeans(rows, m - 1);
      assert rows[..m][..m - 1] == rows[..m - 1];
      SameEvent(rows, m - 1);
      RecentUpdate(Project(rows[..m - 1]), rows, m - 1);
    }
  }

  // ----- the answers of the hardware tool

  /** The tool answer in row i, read with the row before it. */
  function AnswerAt(rows: seq<Row>, i: nat): Option<ToolResult>
    requires i < |rows|
  {
    ToolAnswer(if i == 0 then None else PendingAfter(rows[i - 1]), rows[i])
  }

  /** A row answers the hardware tool exactly when the row before it announces the same call and
      directly precedes it; then its event is the answer's, and otherwise its own. */
  lemma AnswerIff(rows: seq<Row>, i: nat)
    requires i < |rows|
    ensures AnswerAt(rows, i).Some? <==>
              && i > 0 && rows[i].envelope.Some? && rows[i - 1].envelope.Some? && rows[i].id == rows[i - 1].id + 1
              && rows[i].envelope.value.answers.Some?
              && rows[i - 1].envelope.value.announces == Some(rows[i].envelope.value.answers.value.call)
    ensures EventAt(rows, i)
            == if rows[i].envelope.None? then None
               else if AnswerAt(rows, i).Some? then Some(rows[i].envelope.value.answers.value.event)
               else rows[i].envelope.value.app
  {
  }

  function ToolErrors(rows: seq<Row>, m: nat): seq<Token>
    requires m <= |rows|
  {
    if m == 0 then []
    else ToolErrors(rows, m - 1) + if AnswerAt(rows, m - 1).Some? then AnswerAt(rows, m - 1).value.errors else []
  }

  function ToolDelivery(rows: seq<Row>, m: nat): Option<Delivery>
    requires m <= |rows|
  {
    if m == 0 then None
    else if AnswerAt(rows, m - 1).Some? && AnswerAt(rows, m - 1).value.delivery.Some?
    then AnswerAt(rows, m - 1).value.delivery
    else ToolDelivery(rows, m - 1)
  }

  lemma ToolUpdate(v: View, row: Row)
    ensures var a, after := ToolAnswer(v.pending, row), ApplyRow(v, row);
            && after.toolErrors == v.toolErrors + (if a.Some? then a.value.errors else [])
            && after.toolDelivery == (if a.Some? && a.value.delivery.Some? then a.value.delivery else v.toolDelivery)
  {
    hide EventOf, ToolAnswer, PendingAfter, UpdatePipeline, Derived, IsPipeline, RecentWork;
  }

  /** The errors of all answers in order, and the delivery status of the last answer that has one. */
  lemma {:induction false} ToolMeans(rows: seq<Row>, m: nat)
    requires m <= |rows|
    ensures Project(rows[..m]).toolErrors == ToolErrors(rows, m)
    ensures Project(rows[..m]).toolDelivery == ToolDelivery(rows, m)
  {
    hide ToolAnswer, ApplyRow, PendingAfter;
    if m == 0 {
      assert rows[..0] == [];
    } else {
      ToolMeans(rows, m - 1);
      assert rows[..m][..m - 1] == rows[..m - 1];
      if m > 1 { PendingIsLocal(rows[..m - 1]); } else { assert rows[..0] == []; ProjectNone(); }
      ToolUpdate(Project(rows[..m - 1]), rows[m - 1]);
    }
  }

  // ----- the snapshot as a whole

  /** Everything a snapshot of a log shows, apart from the roles. */
  lemma SnapshotShows(rows: seq<Row>, q: Request)
    requires Log(rows, q.cursor)
    ensures var ui, n := Snapshot(rows, q), |rows|;
            var manifest := if q.manifest.Some? then q.manifest else Latest(rows, n, ToldManifest);
            && ui.cursor == q.cursor
            && ui.coverageStart == (if rows == [] then None else Some(rows[0].id))
            && (ui.coverageComplete <==> q.cursor == 0 || (rows != [] && rows[0].id == 1))
            && ui.currentRole == Latest(rows, n, ToldRole) && ui.currentPhase == Latest(rows, n, ToldPhase)
            && ui.report == Latest(rows, n, ToldReport)
            && ui.pipeline.steps == LatestSteps(rows, n)
            && ui.pipeline.status ==
                 (if LatestStatus(rows, n) == NotStarted && q.runStatus.Terminal() then OfRun(q.runStatus)
                  else LatestStatus(rows, n))
            && ui.delivery.status == Worst([q.delivery, if manifest.Some? then manifest.value.delivery else None,
                                            ToolDelivery(rows, n)])
            && ui.delivery.manifestId == (if manifest.Some? then manifest.value.id else None)
            && ui.delivery.artifacts == (if manifest.Some? then manifest.value.artifacts else [])
            && ui.delivery.errors
               == Unique((if manifest.Some? then manifest.value.errors else []) + ToolErrors(rows, n))
            && |ui.recent| <= |Project(rows).recent|
            && ui.recent == Project(rows).recent[|Project(rows).recent| - |ui.recent|..]
            && |ui.recent| == (var limit, all := if q.limit < 1 then 1 else q.limit, ListedCount(rows, n);
                               if all <= limit then all else limit)
  {
    hide Sorted, Upto, Log, Project, Latest, ToolErrors, ToolDelivery, Worst, Unique, ClosedRoles, ListedCount;
    AlreadySorted(rows, q.cursor);
    FieldsUpto(rows, |rows|);
    ToolMeans(rows, |rows|);
    RecentMeans(rows, |rows|);
    assert rows[..|rows|] == rows;
  }

  /** The five standard roles are always there and begin as waiting. */
  lemma StandardRolesWait()
    ensures START.roles.Keys == {Supervisor, Architect, PartsSpecialist, HardwareEngineer, Reviewer}
    ensures forall role :: role in START.roles ==> START.roles[role] == RoleStatus(StWaiting, None, None)
  {
  }

  /** The snapshot shows the roles as projected, except that a supervisor still running is completed
      once the run has ended and a manifest exists. */
  lemma SupervisorCloses(rows: seq<Row>, q: Request, role: Role)
    requires Log(rows, q.cursor)
    ensures role in Snapshot(rows, q).roles <==> role in Project(rows).roles
    ensures role in Project(rows).roles ==>
              var told, shown := Project(rows).roles[role], Snapshot(rows, q).roles[role];
              && shown.phase == told.phase && shown.lastEventId == told.lastEventId
              && shown.status ==
                   if role == Supervisor && told.status == StRunning
                      && q.runStatus in {Completed, Failed, Cancelled, TimedOut}
                      && (q.manifest.Some? || Latest(rows, |rows|, ToldManifest).Some?)
                   then StCompleted else told.status
  {
    hide Snapshot, Project, Log, Latest, ClosedRoles;
    SnapshotRoles(rows, q);
    ClosedRolesAt(Project(rows), q, role);
    FieldsUpto(rows, |rows|);
    assert rows[..|rows|] == rows;
  }

  // ----- projecting a window

  /** An ascending log that ends at the cursor is projected as it is. */
  predicate Log(rows: seq<Row>, cursor: nat) {
    Ascending(rows, RowKey) && forall i :: 0 <= i < |rows| ==> rows[i].id <= cursor
  }

  lemma AlreadySorted(rows: seq<Row>, cursor: nat)
    requires Log(rows, cursor)
    ensures Sorted(Upto(rows, cursor), RowKey) == rows
  {
    hide Sorted, Less;
    UptoAll(rows, cursor);
    assert DistinctKeys(rows, RowKey) by {
      forall i, j | 0 <= i < j < |rows| ensures RowKey(rows[i]) != RowKey(rows[j]) {
        LessOrder(RowKey(rows[i]), RowKey(rows[j]), RowKey(rows[i]));
      }
    }
    SortedAscends(rows, RowKey);
    SortedPermutes(rows, RowKey);
    AscendingIsUnique(Sorted(rows, RowKey), rows, RowKey);
  }

  lemma {:induction false} UptoAll(rows: seq<Row>, cursor: nat)
    requires forall i :: 0 <= i < |rows| ==> rows[i].id <= cursor
    ensures Upto(rows, cursor) == rows
  {
    if rows == [] {
    } else {
      UptoAll(rows[..|rows| - 1], cursor);
    }
  }

  lemma SuffixIsLog(rows: seq<Row>, n: nat, cursor: nat)
    requires Log(rows, cursor) && n <= |rows|
    ensures Log(rows[n..], cursor)
  {
    hide Less;
  }

  /** Behind its first row, a window says the same as the whole log; its first row is read alone. */
  lemma WindowEvents(rows: seq<Row>, n: nat)
    requires n < |rows|
    ensures forall j :: 0 < j < |rows| - n ==> EventAt(rows[n..], j) == EventAt(rows, n + j)
    ensures EventAt(rows[n..], 0) == EventOf(None, rows[n])
  {
    hide EventOf, PendingAfter;
    forall j | 0 < j < |rows| - n ensures EventAt(rows[n..], j) == EventAt(rows, n + j) {
      assert rows[n..][j - 1] == rows[n + j - 1] && rows[n..][j] == rows[n + j];
    }
  }

  /** What the window shows of a role: its last event in the window. */
  lemma WindowShows(rows: seq<Row>, n: nat, role: Role)
    requires n < |rows|
    ensures forall i :: n < i && LastEvent(rows, i, role) ==> LastEvent(rows[n..], i - n, role)
    ensures !ActiveIn(rows, n + 1, |rows|, role) && Moves(EventOf(None, rows[n]), role) ==>
              LastEvent(rows[n..], 0, role)
    ensures !ActiveIn(rows, n + 1, |rows|, role) && !Moves(EventOf(None, rows[n]), role) ==>
              !ActiveIn(rows[n..], 0, |rows[n..]|, role)
  {
    hide EventOf, EventAt, Moves;
    WindowEvents(rows, n);
    forall j | 0 < j < |rows| - n ensures WorkflowEventAt(rows[n..], j, role) == WorkflowEventAt(rows, n + j, role) { }
    assert forall i :: n < i < |rows| ==> WorkflowEventAt(rows, i, role) == WorkflowEventAt(rows[n..], i - n, role);
  }

  /** Which status the window has to show for a role that last moved in row i. */
  predicate ShowsSame(rows: seq<Row>, n: nat, i: nat, role: Role, closes: bool, closesWindow: bool)
    requires n < |rows| && i < |rows| && WorkflowEventAt(rows, i, role)
  {
    var shown := Shown(role, StatusOf(EventAt(rows, i), rows[i].id), closes);
    || (i > n && shown == Shown(role, StatusOf(EventAt(rows, i), rows[i].id), closesWindow))
    || (i == n && Moves(EventOf(None, rows[n]), role)
        && shown == Shown(role, StatusOf(EventOf(None, rows[n]), rows[n].id), closesWindow))
  }

  lemma RowIdsDiffer(rows: seq<Row>, cursor: nat, i: nat, j: nat)
    requires Log(rows, cursor) && i < j < |rows|
    ensures rows[i].id != rows[j].id
  {
    assert Less(RowKey(rows[i]), RowKey(rows[j]));
  }

  lemma ClosedRolesAt(v: View, q: Request, role: Role)
    ensures role in ClosedRoles(v, q) <==> role in v.roles
    ensures role in v.roles ==> ClosedRoles(v, q)[role] == Shown(role, v.roles[role], Closes(v, q))
  {
  }

  lemma SnapshotRoles(rows: seq<Row>, q: Request)
    requires Log(rows, q.cursor)
    ensures Snapshot(rows, q).roles == ClosedRoles(Project(rows), q)
  {
    hide Sorted, Upto, Log, Project, ClosedRoles;
    AlreadySorted(rows, q.cursor);
  }

  lemma LastIsWorkflow(rows: seq<Row>, i: nat, role: Role)
    requires LastEvent(rows, i, role)
    ensures i < |rows| && WorkflowEventAt(rows, i, role)
  {
  }

  lemma NothingLater(rows: seq<Row>, n: nat, i: nat, role: Role)
    requires LastEvent(rows, i, role) && i <= n < |rows|
    ensures !ActiveIn(rows, n + 1, |rows|, role)
  {
  }

  /** Exactly when the snapshot of a retained suffix agrees with that of the whole log on a role
      that last moved in row i. If i is behind the first retained row n, it does, unless only one
      of the two finds a manifest and that closes a running supervisor. If i is n, it does when
      row n read alone says the same. If i has been trimmed, it does not. */
  lemma WindowAgreesIff(rows: seq<Row>, n: nat, i: nat, role: Role, q: Request)
    requires Log(rows, q.cursor) && n < |rows| && LastEvent(rows, i, role)
    ensures SameRole(Snapshot(rows, q).roles, Snapshot(rows[n..], q).roles, role)
            <==> ShowsSame(rows, n, i, role, ClosesLog(rows, q), ClosesLog(rows[n..], q))
  {
    hide Snapshot, Project, ClosedRoles, Closes, ClosesLog, EventOf, EventAt, Moves, ActiveIn, Log, LastEvent;
    ClosesMeans(rows, q);
    ClosesMeans(rows[n..], q);
    var full, window := Project(rows), Project(rows[n..]);
    SuffixIsLog(rows, n, q.cursor);
    SnapshotRoles(rows, q);
    SnapshotRoles(rows[n..], q);
    ClosedRolesAt(full, q, role);
    ClosedRolesAt(window, q, role);
    RoleShowsLastEvent(rows, i, role);
    WindowShows(rows, n, role);
    WindowEvents(rows, n);
    assert i < |rows| && WorkflowEventAt(rows, i, role) by { LastIsWorkflow(rows, i, role); }
    if i > n {
      RoleShowsLastEvent(rows[n..], i - n, role);
    } else {
      assert !ActiveIn(rows, n + 1, |rows|, role) by { NothingLater(rows, n, i, role); }
      if Moves(EventOf(None, rows[n]), role) {
        RoleShowsLastEvent(rows[n..], 0, role);
        if i < n { RowIdsDiffer(rows, q.cursor, i, n); }
      } else {
        SilentRoleIsWaiting(rows[n..], role);
      }
    }
  }

  /** A role that never moved agrees exactly unless the first retained row, read alone, moves it. */
  lemma SilentWindowAgreesIff(rows: seq<Row>, n: nat, role: Role, q: Request)
    requires Log(rows, q.cursor) && n < |rows| && !ActiveIn(rows, 0, |rows|, role)
    ensures SameRole(Snapshot(rows, q).roles, Snapshot(rows[n..], q).roles, role)
            <==> !Moves(EventOf(None, rows[n]), role)
  {
    hide Snapshot, Project, ClosedRoles, Closes, EventOf, EventAt, Moves, Log, LastEvent;
    SuffixIsLog(rows, n, q.cursor);
    SnapshotRoles(rows, q);
    SnapshotRoles(rows[n..], q);
    ClosedRolesAt(Project(rows), q, role);
    ClosedRolesAt(Project(rows[n..]), q, role);
    SilentRoleIsWaiting(rows, role);
    WindowShows(rows, n, role);
    WindowEvents(rows, n);
    if Moves(EventOf(None, rows[n]), role) {
      RoleShowsLastEvent(rows[n..], 0, role);
    } else {
      SilentRoleIsWaiting(rows[n..], role);
    }
  }

  lemma {:induction false} FindLast(rows: seq<Row>, from: nat, m: nat, role: Role) returns (i: nat)
    requires m <= |rows| && ActiveIn(rows, from, m, role)
    ensures from <= i < m && WorkflowEventAt(rows, i, role) && !ActiveIn(rows, i + 1, m, role)
    decreases m
  {
    hide EventAt, Moves;
    i := m - 1;
    if !WorkflowEventAt(rows, m - 1, role) { i := FindLast(rows, from, m - 1, role); }
  }

  /** In particular, every role that moved behind the first retained row has the same status,
      phase and last event id, except the supervisor of a terminal run without a manifest argument. */
  lemma WindowAgrees(rows: seq<Row>, n: nat, role: Role, q: Request)
    requires Log(rows, q.cursor) && n < |rows| && ActiveIn(rows, n + 1, |rows|, role)
    requires !q.runStatus.Terminal() || role != Supervisor || q.manifest.Some?
    ensures SameRole(Snapshot(rows, q).roles, Snapshot(rows[n..], q).roles, role)
  {
    hide Snapshot, Project, Log, EventAt, Moves, ManifestIn;
    var i := FindLast(rows, n + 1, |rows|, role);
    WindowAgreesIff(rows, n, i, role, q);
  }

  /** An instance that fails: the answer of the hardware tool is the first retained row, its call
      has been trimmed. */
  lemma FirstRowOfWindowCanDiffer(call: Token, event: AppEvent, q: Request)
    requires Moves(Some(event), HardwareEngineer) && q.cursor >= 2
    ensures var rows := [Row(1, Some(Envelope(Some(call), None, None))),
                         Row(2, Some(Envelope(None, Some(ToolResult(call, event, None, [])), None)))];
            !SameRole(Snapshot(rows, q).roles, Snapshot(rows[1..], q).roles, HardwareEngineer)
  {
    hide Snapshot, Project, ClosesLog;
    var rows := [Row(1, Some(Envelope(Some(call), None, None))),
                 Row(2, Some(Envelope(None, Some(ToolResult(call, event, None, [])), None)))];
    assert EventAt(rows, 1) == Some(event) && EventOf(None, rows[1]) == None;
    WindowAgreesIff(rows, 1, 1, HardwareEngineer, q);
  }

  // ----- the order of the rows

  lemma {:induction false} UptoCounts(rows: seq<Row>, cursor: nat, x: Row)
    ensures multiset(Upto(rows, cursor))[x] == if x.id <= cursor then multiset(rows)[x] else 0
  {
    if rows == [] {
    } else {
      UptoCounts(rows[..|rows| - 1], cursor, x);
      assert rows == rows[..|rows| - 1] + [rows[|rows| - 1]];
    }
  }

  lemma {:induction false} UptoIds(rows: seq<Row>, cursor: nat)
    requires DistinctKeys(rows, RowKey)
    ensures DistinctKeys(Upto(rows, cursor), RowKey)
    ensures forall x :: x in Upto(rows, cursor) ==> x in rows
  {
    if rows == [] {
    } else {
      var front, last := rows[..|rows| - 1], rows[|rows| - 1];
      UptoIds(front, cursor);
      var kept := Upto(front, cursor);
      forall i | 0 <= i < |kept| ensures RowKey(kept[i]) != RowKey(last) {
        assert kept[i] in front;
        var j :| 0 <= j < |front| && front[j] == kept[i];
        assert RowKey(rows[j]) != RowKey(rows[|rows| - 1]);
      }
    }
  }

  /** The snapshot does not depend on the order in which the rows are handed over. */
  lemma SnapshotForgetsOrder(a: seq<Row>, b: seq<Row>, q: Request)
    requires multiset(a) == multiset(b) && DistinctKeys(a, RowKey) && DistinctKeys(b, RowKey)
    ensures Snapshot(a, q) == Snapshot(b, q)
  {
    hide Sorted, Project, DistinctKeys, Present;
    assert multiset(Upto(a, q.cursor)) == multiset(Upto(b, q.cursor)) by {
      forall x ensures multiset(Upto(a, q.cursor))[x] == multiset(Upto(b, q.cursor))[x] {
        UptoCounts(a, q.cursor, x);
        UptoCounts(b, q.cursor, x);
      }
    }
    UptoIds(a, q.cursor);
    UptoIds(b, q.cursor);
    SortForgetsOrder(Upto(a, q.cursor), Upto(b, q.cursor), RowKey);
  }
}
