/** Case runs, their decisions and their replay: StartCase and ReplayCase of internal/app/app.go. */
module Cases {
  import opened Conditions
  import opened Learning
  import opened Rules

  datatype CaseRun = CaseRun(
    tenant: string, workflow: string, payload: Payload, version: Id, replayedFrom: Option<Id>,
    status: string, point: Id)

  datatype DecisionPoint = DecisionPoint(
    tenant: string, caseRun: Id, decisionType: string, input: Payload, action: string, status: string)

  datatype Artifact = Artifact(tenant: string, caseRun: Id, isSnapshot: bool, content: Payload)

  datatype ReviewPacket = ReviewPacket(tenant: string, caseRun: Id, point: Id, expiresAt: int)

  datatype Docket = Docket(
    runs: map<Id, CaseRun>,
    points: map<Id, DecisionPoint>,
    artifacts: map<Id, Artifact>,
    packets: map<Id, ReviewPacket>)

  const EMPTY_DOCKET := Docket(map[], map[], map[], map[])

  /** The fresh identifiers one case start draws. */
  datatype StartIds = StartIds(run: Id, point: Id, draft: Id, snapshot: Id, packet: Id)

  const PACKET_LIFETIME := 48 * 3600

  datatype Error = InvalidInput | SandboxContamination | NotFound

  // ----- Starting a case

  function AllowedActions(workflow: string): seq<string> {
    if workflow == "invoice_handling" then ["apply_gst", "apply_no_gst", "hold_and_request_more_info"]
    else if workflow == "enquiry_triage" then ["draft_reply", "hold_and_request_more_info", "use_corporate_template"]
    else ["send_quote", "hold_and_request_more_info", "use_corporate_template"]
  }

  predicate IsTrue(payload: Payload, field: string) {
    field in payload && payload[field].printed == "true"
  }

  /** Why a case is refused, if it is; the order of the checks is the code's. */
  function StartCheck(s: Shelf, tenant: string, workflow: string, mode: string, payload: Payload): Option<Error> {
    if tenant == "" || workflow == "" || (mode != "sandbox" && mode != "live") then Some(InvalidInput)
    else if mode == "sandbox" && !IsTrue(payload, "sandbox") then Some(SandboxContamination)
    else if tenant !in s.verticals || workflow !in WORKFLOWS then Some(NotFound)
    else
      var slot := Slot(tenant, workflow);
      if slot !in s.activeVersion || s.activeVersion[slot] !in s.versions then Some(NotFound) else None
  }

  function AgentInput(payload: Payload, workflow: string): Payload {
    payload["workflow_slug" := Text(workflow)]
  }

  function WorkflowFromInput(input: Payload): string {
    if "workflow_slug" in input && input["workflow_slug"].isText && input["workflow_slug"].printed != ""
    then input["workflow_slug"].printed
    else "quote_drafting"
  }

  /** A rule that fires decides; otherwise the agent may choose among the allowed actions. */
  function ProposedAction(workflow: string, payload: Payload, manifest: seq<ManifestRule>,
      agent: Option<string>): string {
    var (action, matched) := Decide(workflow, payload, manifest);
    if agent.Some? && !matched && agent.value in AllowedActions(workflow) then agent.value else action
  }

  function PointFor(run: Id, tenant: string, workflow: string, payload: Payload, action: string,
      status: string): DecisionPoint {
    DecisionPoint(tenant, run, WorkflowDecision(workflow).0, AgentInput(payload, workflow), action, status)
  }

  function StartCase(d: Docket, s: Shelf, tenant: string, workflow: string, payload: Payload, agent: Option<string>,
      ids: StartIds, now: int): Docket
    requires Slot(tenant, workflow) in s.activeVersion && s.activeVersion[Slot(tenant, workflow)] in s.versions
  {
    var version := s.activeVersion[Slot(tenant, workflow)];
    var action := ProposedAction(workflow, payload, s.versions[version].manifest, agent);
    Docket(
      d.runs[ids.run := CaseRun(tenant, workflow, payload, version, None, "waiting_for_approval", ids.point)],
      d.points[ids.point := PointFor(ids.run, tenant, workflow, payload, action, "waiting_for_approval")],
      d.artifacts[ids.draft := Artifact(tenant, ids.run, false, map[])]
        [ids.snapshot := Artifact(tenant, ids.run, true, payload)],
      d.packets[ids.packet := ReviewPacket(tenant, ids.run, ids.point, now + PACKET_LIFETIME)])
  }

  // ----- Replaying a case

  predicate IsSnapshotOf(d: Docket, a: Id, tenant: string, run: Id) {
    a in d.artifacts && d.artifacts[a].isSnapshot && d.artifacts[a].tenant == tenant && d.artifacts[a].caseRun == run
  }

  predicate IsFirstSnapshot(d: Docket, a: Id, tenant: string, run: Id) {
    IsSnapshotOf(d, a, tenant, run) && forall b <- d.artifacts.Keys :: IsSnapshotOf(d, b, tenant, run) ==> a <= b
  }

  ghost function SnapshotPayload(d: Docket, tenant: string, run: Id): Payload
    requires run in d.runs
  {
    if exists a :: IsFirstSnapshot(d, a, tenant, run) then
      var a :| IsFirstSnapshot(d, a, tenant, run);
      d.artifacts[a].content
    else d.runs[run].payload
  }

  /** The skill version a replay runs against: a named one, the current one, or the pinned one. */
  function ReplayVersion(d: Docket, s: Shelf, tenant: string, run: Id, named: Option<Id>, current: bool): Option<Id>
    requires run in d.runs
  {
    if named.Some? then
      if named.value in s.versions && s.versions[named.value].slot.tenant == tenant then named else None
    else if current then
      var slot := Slot(tenant, d.runs[run].workflow);
      if slot in s.activeVersion && s.activeVersion[slot] in s.versions then Some(s.activeVersion[slot]) else None
    else if d.runs[run].version in s.versions && s.versions[d.runs[run].version].slot.tenant == tenant then
      Some(d.runs[run].version)
    else None
  }

  predicate HasRun(d: Docket, tenant: string, run: Id) {
    run in d.runs && d.runs[run].tenant == tenant
  }

  /** Replay never consults the agent. */
  ghost function Replay(d: Docket, s: Shelf, tenant: string, run: Id, named: Option<Id>, current: bool, newRun: Id,
      newPoint: Id): Docket {
    if HasRun(d, tenant, run) && ReplayVersion(d, s, tenant, run, named, current).Some? then
      var version := ReplayVersion(d, s, tenant, run, named, current).value;
      ReplayWith(d, s, tenant, run, version, newRun, newPoint)
    else d
  }

  ghost function ReplayWith(d: Docket, s: Shelf, tenant: string, run: Id, version: Id, newRun: Id, newPoint: Id): Docket
    requires run in d.runs && version in s.versions
  {
    var original, payload := d.runs[run], SnapshotPayload(d, tenant, run);
    var action := Decide(original.workflow, payload, s.versions[version].manifest).0;
    d.(runs := d.runs[newRun := CaseRun(tenant, original.workflow, payload, version, Some(run), "replayed", newPoint)],
       points := d.points[newPoint := PointFor(newRun, tenant, original.workflow, payload, action, "replayed")])
  }

  // ----- Replies

  /** The packet belongs to a case and a decision point of its tenant. */
  predicate PacketSound(d: Docket, packet: Id) {
    && packet in d.packets
    && d.packets[packet].caseRun in d.runs && d.runs[d.packets[packet].caseRun].tenant == d.packets[packet].tenant
    && d.packets[packet].point in d.points && d.points[d.packets[packet].point].tenant == d.packets[packet].tenant
  }

  function SetStatus(d: Docket, run: Id, point: Id, status: string): Docket
    requires run in d.runs && point in d.points
  {
    d.(runs := d.runs[run := d.runs[run].(status := status)],
       points := d.points[point := d.points[point].(status := status)])
  }

  // ----- What holds in every reachable state

  /** The stored action came from the rules, or from the agent where no rule fired. */
  ghost predicate ActionExplained(workflow: string, payload: Payload, manifest: seq<ManifestRule>, action: string) {
    exists agent :: action == ProposedAction(workflow, payload, manifest, agent)
  }

  ghost predicate RunSound(d: Docket, s: Shelf, r: Id)
    requires r in d.runs
  {
    var run := d.runs[r];
    && run.workflow != ""
    && run.version in s.versions && s.versions[run.version].slot.tenant == run.tenant
    && run.point in d.points
    && d.points[run.point].(status := "", action := "") == PointFor(r, run.tenant, run.workflow, run.payload, "", "")
    && ActionExplained(run.workflow, run.payload, s.versions[run.version].manifest, d.points[run.point].action)
  }

  ghost predicate RunsSound(d: Docket, s: Shelf) {
    forall r :: r in d.runs ==> RunSound(d, s, r)
  }

  ghost predicate PacketsSound(d: Docket) {
    forall p :: p in d.packets ==> PacketSound(d, p) && d.runs[d.packets[p].caseRun].point == d.packets[p].point
  }

  ghost predicate SnapshotsSound(d: Docket) {
    forall a :: a in d.artifacts ==>
      && d.artifacts[a].caseRun in d.runs && d.runs[d.artifacts[a].caseRun].tenant == d.artifacts[a].tenant
      && (d.artifacts[a].isSnapshot ==> d.artifacts[a].content == d.runs[d.artifacts[a].caseRun].payload)
  }

  ghost predicate DocketInv(d: Docket, s: Shelf) {
    RunsSound(d, s) && PacketsSound(d) && SnapshotsSound(d)
  }

  /** The snapshot a replay reads is the payload the run was started with. */
  lemma SnapshotIsPayload(d: Docket, tenant: string, run: Id)
    requires SnapshotsSound(d) && HasRun(d, tenant, run)
    ensures SnapshotPayload(d, tenant, run) == d.runs[run].payload
  {
  }

  /** The workflow a correction is filed under is the workflow of its case. */
  lemma WorkflowSurvives(payload: Payload, workflow: string)
    requires workflow != ""
    ensures WorkflowFromInput(AgentInput(payload, workflow)) == workflow
  {
  }

  /** Skill versions stay in place with their slot and manifest; only their status moves. */
  ghost predicate VersionsKept(s: Shelf, t: Shelf) {
    forall v :: v in s.versions ==>
      v in t.versions && t.versions[v].slot == s.versions[v].slot && t.versions[v].manifest == s.versions[v].manifest
        && t.versions[v].version == s.versions[v].version
  }

  lemma KeptVersionsKeepRuns(d: Docket, s: Shelf, t: Shelf)
    requires DocketInv(d, s) && VersionsKept(s, t)
    ensures DocketInv(d, t)
  {
    forall r | r in d.runs ensures RunSound(d, t, r) {
      assert RunSound(d, s, r);
    }
  }

  predicate FreshStart(d: Docket, ids: StartIds) {
    && ids.run !in d.runs && ids.point !in d.points && ids.packet !in d.packets
    && ids.draft !in d.artifacts && ids.snapshot !in d.artifacts && ids.draft != ids.snapshot
  }

  lemma StartKeepsRuns(d: Docket, s: Shelf, tenant: string, workflow: string, payload: Payload, agent: Option<string>,
      ids: StartIds, now: int)
    requires RunsSound(d, s) && FreshStart(d, ids) && workflow != ""
    requires Slot(tenant, workflow) in s.activeVersion && s.activeVersion[Slot(tenant, workflow)] in s.versions
    requires s.versions[s.activeVersion[Slot(tenant, workflow)]].slot == Slot(tenant, workflow)
    ensures RunsSound(StartCase(d, s, tenant, workflow, payload, agent, ids, now), s)
  {
    var v := StartCase(d, s, tenant, workflow, payload, agent, ids, now);
    forall r | r in v.runs ensures RunSound(v, s, r) {
      if r != ids.run {
        assert RunSound(d, s, r);
      }
    }
  }

  lemma StartKeepsInv(d: Docket, s: Shelf, tenant: string, workflow: string, payload: Payload, agent: Option<string>,
      ids: StartIds, now: int)
    requires DocketInv(d, s) && FreshStart(d, ids) && workflow != ""
    requires Slot(tenant, workflow) in s.activeVersion && s.activeVersion[Slot(tenant, workflow)] in s.versions
    requires s.versions[s.activeVersion[Slot(tenant, workflow)]].slot == Slot(tenant, workflow)
    ensures DocketInv(StartCase(d, s, tenant, workflow, payload, agent, ids, now), s)
  {
    hide RunsSound;
    var v := StartCase(d, s, tenant, workflow, payload, agent, ids, now);
    StartKeepsRuns(d, s, tenant, workflow, payload, agent, ids, now);
    forall p | p in v.packets ensures PacketSound(v, p) && v.runs[v.packets[p].caseRun].point == v.packets[p].point {
      assert p in d.packets ==> PacketSound(d, p);
    }
  }

  lemma ReplayKeepsInv(d: Docket, s: Shelf, tenant: string, run: Id, version: Id, newRun: Id, newPoint: Id)
    requires DocketInv(d, s) && HasRun(d, tenant, run) && newRun !in d.runs && newPoint !in d.points
    requires version in s.versions && s.versions[version].slot.tenant == tenant
    ensures DocketInv(ReplayWith(d, s, tenant, run, version, newRun, newPoint), s)
  {
    var v := ReplayWith(d, s, tenant, run, version, newRun, newPoint);
    assert RunSound(d, s, run);
    var payload, manifest := SnapshotPayload(d, tenant, run), s.versions[version].manifest;
    assert v.points[newPoint].action == ProposedAction(d.runs[run].workflow, payload, manifest, None);
    forall r | r in v.runs ensures RunSound(v, s, r) {
      if r != newRun {
        assert RunSound(d, s, r);
      }
    }
    assert PacketsSound(v) by {
      forall p | p in v.packets ensures PacketSound(v, p) && v.runs[v.packets[p].caseRun].point == v.packets[p].point {
        assert PacketSound(d, p);
      }
    }
  }

  lemma SetStatusKeepsRuns(d: Docket, s: Shelf, packet: Id, status: string)
    requires RunsSound(d, s) && packet in d.packets && PacketSound(d, packet)
    ensures RunsSound(SetStatus(d, d.packets[packet].caseRun, d.packets[packet].point, status), s)
  {
    hide ActionExplained, PointFor;
    var v := SetStatus(d, d.packets[packet].caseRun, d.packets[packet].point, status);
    forall r | r in v.runs ensures RunSound(v, s, r) {
      assert RunSound(d, s, r);
    }
  }

  lemma SetStatusKeepsPackets(d: Docket, run: Id, point: Id, status: string)
    requires PacketsSound(d) && run in d.runs && point in d.points
    ensures PacketsSound(SetStatus(d, run, point, status))
  {
    var v := SetStatus(d, run, point, status);
    forall p | p in v.packets ensures PacketSound(v, p) && v.runs[v.packets[p].caseRun].point == v.packets[p].point {
      assert PacketSound(d, p);
    }
  }

  lemma SetStatusKeepsInv(d: Docket, s: Shelf, packet: Id, status: string)
    requires DocketInv(d, s) && packet in d.packets
    ensures PacketSound(d, packet)
      && DocketInv(SetStatus(d, d.packets[packet].caseRun, d.packets[packet].point, status), s)
  {
    SetStatusKeepsRuns(d, s, packet, status);
    hide RunsSound;
    SetStatusKeepsPackets(d, d.packets[packet].caseRun, d.packets[packet].point, status);
    hide PacketsSound;
  }
}
