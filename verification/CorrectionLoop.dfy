/** The correction loop as one state machine over whole runs: tenants are provisioned, cases started,
 *  operators reply, candidates are promoted, cases replayed (internal/app/app.go).
 */
module CorrectionLoop {
  import opened Bindings
  import opened Cases
  import opened Conditions
  import opened Confidence
  import opened Learning
  import opened Rules
  import opened Strings

  datatype Ledger = Ledger(learn: Learn, shelf: Shelf, docket: Docket, bindings: Table)

  const EMPTY := Ledger(EMPTY_LEARN, EMPTY_SHELF, EMPTY_DOCKET, map[])

  /** One call, with the fresh identifiers it draws. A reply names the number it came in on, not a tenant. */
  datatype Op =
    | ProvisionTenant(tenant: string, name: string, vertical: string, number: string, operator: string,
        quote: Id, triage: Id, invoice: Id, now: int)
    | Acknowledge(tenant: string, inboundMode: string, draft: string, operatorJid: string)
    | Start(tenant: string, workflow: string, mode: string, payload: Payload, agent: Option<string>,
        ids: StartIds, now: int)
    | Reply(provider: Provider, packet: Id, button: Button, rawMessage: string, sourceMessage: string,
        conditions: seq<Condition>, action: string, scopeHint: Option<Scope>, correction: Id, candidate: Id, now: int)
    | PromoteCandidate(tenant: string, candidate: Id, reviewer: string, rule: Id, version: Id, now: int)
    | ReplayCase(tenant: string, run: Id, named: Option<Id>, current: bool, newRun: Id, newPoint: Id)

  // ----- The steps

  function SignalOf(d: Docket, op: Op): SignalId
    requires op.Reply? && op.packet in d.packets
  {
    SignalId(d.packets[op.packet].tenant, op.packet, op.button, op.rawMessage)
  }

  /** The correction a reply to a sound packet would file. */
  function CorrectionOf(d: Docket, op: Op): Correction
    requires op.Reply? && PacketSound(d, op.packet)
  {
    var packet := d.packets[op.packet];
    var point := d.points[packet.point];
    Correction(packet.tenant, op.packet, packet.caseRun, packet.point,
      WorkflowFromInput(point.input), point.decisionType, op.button, op.conditions, op.action, op.scopeHint)
  }

  function CorrectionKeyOf(d: Docket, op: Op): CorrectionKey
    requires op.Reply? && op.packet in d.packets
  {
    CorrectionKey(d.packets[op.packet].tenant, d.packets[op.packet].point, op.packet, op.button, op.sourceMessage)
  }

  /** The reply reaches persistSignal: the tenant its number belongs to now owns the packet, which has not
   *  expired.
   */
  predicate Admitted(l: Ledger, op: Op)
    requires op.Reply?
  {
    && op.provider in l.bindings
    && PacketSound(l.docket, op.packet)
    && l.docket.packets[op.packet].tenant == l.bindings[op.provider].tenant
    && op.now <= l.docket.packets[op.packet].expiresAt
  }

  /** The reply has an effect beyond being seen: an approval, or a correction not filed before. */
  predicate Recorded(l: Ledger, op: Op)
    requires op.Reply?
  {
    && Admitted(l, op)
    && SignalOf(l.docket, op) !in l.learn.signals
    && (op.button == Approve || CorrectionKeyOf(l.docket, op) !in l.learn.correctionKeys)
  }

  ghost function ReplyLearn(l: Ledger, op: Op): Learn
    requires op.Reply? && PacketSound(l.docket, op.packet)
  {
    Receive(l.learn, SignalOf(l.docket, op), op.correction, CorrectionKeyOf(l.docket, op), CorrectionOf(l.docket, op),
      op.candidate, op.now)
  }

  function ReplyDocket(l: Ledger, op: Op): Docket
    requires op.Reply? && PacketSound(l.docket, op.packet)
  {
    var packet := l.docket.packets[op.packet];
    if op.button == Approve then SetStatus(l.docket, packet.caseRun, packet.point, "approved")
    else if CorrectionKeyOf(l.docket, op) in l.learn.correctionKeys then l.docket
    else SetStatus(l.docket, packet.caseRun, packet.point, "corrected")
  }

  ghost function StepReply(l: Ledger, op: Op): Ledger
    requires op.Reply?
  {
    if !Admitted(l, op) || SignalOf(l.docket, op) in l.learn.signals then l
    else l.(learn := ReplyLearn(l, op), docket := ReplyDocket(l, op))
  }

  /** Status and contradictions are not asked about. */
  predicate Promotes(l: Ledger, op: Op)
    requires op.PromoteCandidate?
  {
    && op.tenant != "" && op.reviewer != ""
    && op.candidate in l.learn.candidates && l.learn.candidates[op.candidate].key.tenant == op.tenant
  }

  ghost function StepPromote(l: Ledger, op: Op): Ledger
    requires op.PromoteCandidate?
  {
    if !Promotes(l, op) then l
    else
      var c := l.learn.candidates[op.candidate];
      l.(shelf := Promote(l.shelf, c, op.candidate, op.reviewer, op.rule, op.version, op.now),
         learn := PromoteIn(l.learn, op.candidate))
  }

  predicate Provisions(l: Ledger, op: Op)
    requires op.ProvisionTenant?
  {
    && TrimSpace(op.name) != "" && TrimSpace(op.vertical) != "" && op.number != "" && op.operator != ""
    && op.tenant !in l.shelf.verticals
  }

  /** The number is claimed whether or not another tenant has it. */
  function StepProvision(l: Ledger, op: Op): Ledger
    requires op.ProvisionTenant?
  {
    if !Provisions(l, op) then l
    else
      l.(shelf := Provision(l.shelf, op.tenant, TrimSpace(op.vertical), op.quote, op.triage, op.invoice, op.now),
         bindings := Claim(l.bindings, op.tenant, op.number))
  }

  ghost function Step(l: Ledger, op: Op): Ledger {
    match op
    case ProvisionTenant(_, _, _, _, _, _, _, _, _) => StepProvision(l, op)
    case Acknowledge(tenant, mode, draft, operator) =>
      l.(bindings := Consent(l.bindings, tenant, mode, draft, operator))
    case Start(tenant, workflow, mode, payload, agent, ids, now) =>
      if StartCheck(l.shelf, tenant, workflow, mode, payload).Some? then l
      else l.(docket := StartCase(l.docket, l.shelf, tenant, workflow, payload, agent, ids, now))
    case Reply(_, _, _, _, _, _, _, _, _, _, _) => StepReply(l, op)
    case PromoteCandidate(_, _, _, _, _, _) => StepPromote(l, op)
    case ReplayCase(tenant, run, named, current, newRun, newPoint) =>
      l.(docket := Replay(l.docket, l.shelf, tenant, run, named, current, newRun, newPoint))
  }

  ghost function Run(l: Ledger, ops: seq<Op>): Ledger
    decreases |ops|
  {
    if ops == [] then l else Run(Step(l, ops[0]), ops[1..])
  }

  /** The identifiers an operation draws have not been used in the tables they go to. */
  ghost predicate Fresh(l: Ledger, op: Op) {
    match op
    case Acknowledge(_, _, _, _) => true
    case ProvisionTenant(_, _, _, _, _, quote, triage, invoice, _) =>
      && quote !in l.shelf.versions && triage !in l.shelf.versions && invoice !in l.shelf.versions
      && quote != triage && triage != invoice && quote != invoice
    case Start(_, _, _, _, _, ids, _) => FreshStart(l.docket, ids)
    case Reply(_, _, _, _, _, _, _, _, correction, candidate, _) =>
      correction !in l.learn.corrections && candidate !in l.learn.candidates
    case PromoteCandidate(_, _, _, rule, version, _) => rule !in l.shelf.rules && version !in l.shelf.versions
    case ReplayCase(_, _, _, _, newRun, newPoint) => newRun !in l.docket.runs && newPoint !in l.docket.points
  }

  ghost predicate FreshRun(l: Ledger, ops: seq<Op>)
    decreases |ops|
  {
    ops == [] || (Fresh(l, ops[0]) && FreshRun(Step(l, ops[0]), ops[1..]))
  }

  // ----- The invariant

  /** Nothing is filed under a tenant that does not exist. */
  ghost predicate TenantsKnown(l: Ledger) {
    && (forall c :: c in l.learn.candidates ==> l.learn.candidates[c].key.tenant in l.shelf.verticals)
    && (forall r :: r in l.shelf.rules ==> l.shelf.rules[r].key.tenant in l.shelf.verticals)
    && (forall slot: Slot :: slot in l.shelf.activeVersion ==> slot.tenant in l.shelf.verticals)
    && (forall r :: r in l.docket.runs ==> l.docket.runs[r].tenant in l.shelf.verticals)
    && (forall p :: p in l.bindings ==> l.bindings[p].tenant in l.shelf.verticals)
  }

  ghost predicate Inv(l: Ledger) {
    && LearnInv(l.learn)
    && ShelfInv(l.shelf)
    && DocketInv(l.docket, l.shelf)
    && TenantsKnown(l)
    && OnePerChannel(l.bindings)
  }

  lemma EmptyInv()
    ensures Inv(EMPTY)
  {
  }

  lemma PromoteKeepsVersions(s: Shelf, c: Candidate, candidate: Id, reviewer: string, rule: Id, version: Id, now: int)
    requires version !in s.versions
    ensures VersionsKept(s, Promote(s, c, candidate, reviewer, rule, version, now))
  {
  }

  lemma ProvisionKeepsVersions(s: Shelf, tenant: string, vertical: string, quote: Id, triage: Id, invoice: Id, now: int)
    requires quote !in s.versions && triage !in s.versions && invoice !in s.versions
    requires quote != triage && triage != invoice && quote != invoice
    ensures VersionsKept(s, Provision(s, tenant, vertical, quote, triage, invoice, now))
  {
  }

  lemma ProvisionTenantsKnown(l: Ledger, op: Op)
    requires TenantsKnown(l) && op.ProvisionTenant?
    ensures TenantsKnown(StepProvision(l, op))
  {
  }

  /** What is known of a tenant that does not exist yet: nothing is filed under it. */
  lemma NothingFiledYet(l: Ledger, tenant: string)
    requires TenantsKnown(l) && tenant !in l.shelf.verticals
    ensures forall i :: i in l.shelf.rules ==> l.shelf.rules[i].key.tenant != tenant
    ensures forall slot: Slot :: slot in l.shelf.activeVersion ==> slot.tenant != tenant
    ensures forall p :: p in l.bindings ==> l.bindings[p].tenant != tenant
  {
  }

  lemma ProvisionStepKeepsInv(l: Ledger, op: Op)
    requires Inv(l) && op.ProvisionTenant? && Fresh(l, op)
    ensures Inv(Step(l, op))
  {
    hide LearnInv, ShelfInv, DocketInv, TenantsKnown, Claim, OnePerChannel;
    if Provisions(l, op) {
      var vertical := TrimSpace(op.vertical);
      ProvisionTenantsKnown(l, op);
      NothingFiledYet(l, op.tenant);
      ProvisionKeeps(l.shelf, op.tenant, vertical, op.quote, op.triage, op.invoice, op.now);
      ProvisionKeepsVersions(l.shelf, op.tenant, vertical, op.quote, op.triage, op.invoice, op.now);
      KeptVersionsKeepRuns(l.docket, l.shelf, Step(l, op).shelf);
      ClaimKeepsOne(l.bindings, op.tenant, op.number);
    }
  }

  lemma AcknowledgeStepKeepsInv(l: Ledger, op: Op)
    requires Inv(l) && op.Acknowledge?
    ensures Inv(Step(l, op))
  {
    hide LearnInv, ShelfInv, DocketInv;
    ConsentKeepsOne(l.bindings, op.tenant, op.inboundMode, op.draft, op.operatorJid);
  }

  lemma BindingsAreUnique(l: Ledger)
    requires Inv(l)
    ensures OnePerChannel(l.bindings)
  {
  }

  lemma StartStepKeepsInv(l: Ledger, op: Op)
    requires Inv(l) && op.Start? && Fresh(l, op)
    ensures Inv(Step(l, op))
  {
    hide LearnInv, DocketInv, OnePerChannel, ProposedAction;
    if StartCheck(l.shelf, op.tenant, op.workflow, op.mode, op.payload).None? {
      ActiveSlot(l.shelf, Slot(op.tenant, op.workflow));
      StartKeepsInv(l.docket, l.shelf, op.tenant, op.workflow, op.payload, op.agent, op.ids, op.now);
    }
  }

  lemma ReceiveKeepsTenants(l: Learn, s: SignalId, id: Id, k: CorrectionKey, c: Correction, newId: Id, now: int,
      tenants: set<string>)
    requires c.tenant in tenants && newId !in l.candidates
    requires forall i :: i in l.candidates ==> l.candidates[i].key.tenant in tenants
    ensures var v := Receive(l, s, id, k, c, newId, now);
      forall i :: i in v.candidates ==> v.candidates[i].key.tenant in tenants
  {
    hide CanonicalizeConditions, StatusFor;
  }

  lemma ReplyDocketKeeps(l: Ledger, op: Op)
    requires DocketInv(l.docket, l.shelf) && op.Reply? && PacketSound(l.docket, op.packet)
    ensures DocketInv(ReplyDocket(l, op), l.shelf)
    ensures ReplyDocket(l, op).runs.Keys == l.docket.runs.Keys
    ensures forall r :: r in l.docket.runs ==> ReplyDocket(l, op).runs[r].tenant == l.docket.runs[r].tenant
  {
    hide DocketInv;
    SetStatusKeepsInv(l.docket, l.shelf, op.packet, "approved");
    SetStatusKeepsInv(l.docket, l.shelf, op.packet, "corrected");
  }

  lemma ReplyLearnKeeps(l: Ledger, op: Op)
    requires Inv(l) && op.Reply? && Fresh(l, op) && Admitted(l, op)
    ensures LearnInv(ReplyLearn(l, op))
    ensures forall i :: i in ReplyLearn(l, op).candidates ==>
      ReplyLearn(l, op).candidates[i].key.tenant in l.shelf.verticals
  {
    var c, k := CorrectionOf(l.docket, op), CorrectionKeyOf(l.docket, op);
    var s := SignalOf(l.docket, op);
    ReceiveKeeps(l.learn, s, op.correction, k, c, op.candidate, op.now);
    ReceiveKeepsTenants(l.learn, s, op.correction, k, c, op.candidate, op.now, l.shelf.verticals.Keys);
  }

  lemma ReplyStepKeepsInv(l: Ledger, op: Op)
    requires Inv(l) && op.Reply? && Fresh(l, op)
    ensures Inv(Step(l, op))
  {
    if Admitted(l, op) && SignalOf(l.docket, op) !in l.learn.signals {
      ReplyLearnKeeps(l, op);
      ReplyDocketKeeps(l, op);
    }
  }

  lemma PromoteTenantsKnown(l: Ledger, op: Op)
    requires TenantsKnown(l) && op.PromoteCandidate?
    ensures TenantsKnown(StepPromote(l, op))
  {
    hide BuildManifest;
  }

  lemma PromoteStepKeepsInv(l: Ledger, op: Op)
    requires Inv(l) && op.PromoteCandidate? && Fresh(l, op)
    ensures Inv(Step(l, op))
  {
    hide LearnInv, ShelfInv, DocketInv, TenantsKnown, OnePerChannel, Promote;
    PromoteTenantsKnown(l, op);
    var v := Step(l, op);
    if v != l {
      var c := l.learn.candidates[op.candidate];
      PromoteInKeeps(l.learn, op.candidate);
      PromoteKeeps(l.shelf, c, op.candidate, op.reviewer, op.rule, op.version, op.now);
      PromoteKeepsVersions(l.shelf, c, op.candidate, op.reviewer, op.rule, op.version, op.now);
      KeptVersionsKeepRuns(l.docket, l.shelf, v.shelf);
    }
  }

  lemma ReplayStepKeepsInv(l: Ledger, op: Op)
    requires Inv(l) && op.ReplayCase? && Fresh(l, op)
    ensures Inv(Step(l, op))
  {
    hide LearnInv, DocketInv, OnePerChannel, SnapshotPayload, Decide;
    if !HasRun(l.docket, op.tenant, op.run) {
      return;
    }
    var found := ReplayVersion(l.docket, l.shelf, op.tenant, op.run, op.named, op.current);
    if found.Some? {
      var version := found.value;
      var slot := Slot(op.tenant, l.docket.runs[op.run].workflow);
      if slot in l.shelf.activeVersion {
        ActiveSlot(l.shelf, slot);
      }
      ReplayKeepsInv(l.docket, l.shelf, op.tenant, op.run, version, op.newRun, op.newPoint);
    }
  }

  lemma StepKeepsInv(l: Ledger, op: Op)
    requires Inv(l) && Fresh(l, op)
    ensures Inv(Step(l, op))
  {
    match op
    case ProvisionTenant(_, _, _, _, _, _, _, _, _) => ProvisionStepKeepsInv(l, op);
    case Acknowledge(_, _, _, _) => AcknowledgeStepKeepsInv(l, op);
    case Start(_, _, _, _, _, _, _) => StartStepKeepsInv(l, op);
    case Reply(_, _, _, _, _, _, _, _, _, _, _) => ReplyStepKeepsInv(l, op);
    case PromoteCandidate(_, _, _, _, _, _) => PromoteStepKeepsInv(l, op);
    case ReplayCase(_, _, _, _, _, _) => ReplayStepKeepsInv(l, op);
  }

  lemma {:induction false} RunKeepsInv(l: Ledger, ops: seq<Op>)
    requires Inv(l) && FreshRun(l, ops)
    ensures Inv(Run(l, ops))
    decreases |ops|
  {
    if ops != [] {
      StepKeepsInv(l, ops[0]);
      RunKeepsInv(Step(l, ops[0]), ops[1..]);
    }
  }

  /** Every ledger a run can reach satisfies the invariant. */
  lemma ReachableInv(ops: seq<Op>)
    requires FreshRun(EMPTY, ops)
    ensures Inv(Run(EMPTY, ops))
  {
    EmptyInv();
    RunKeepsInv(EMPTY, ops);
  }

  /** Every tenant has an active skill version for every workflow. */
  ghost predicate SlotsFilled(s: Shelf) {
    forall t, w :: t in s.verticals && w in WORKFLOWS ==> Slot(t, w) in s.activeVersion
  }

  lemma StepKeepsSlots(l: Ledger, op: Op)
    requires SlotsFilled(l.shelf)
    ensures SlotsFilled(Step(l, op).shelf)
  {
    var a, b := l.shelf, Step(l, op).shelf;
    assert a.activeVersion.Keys <= b.activeVersion.Keys;
    forall t, w | t in b.verticals && w in WORKFLOWS ensures Slot(t, w) in b.activeVersion {
      if t in a.verticals {
        assert Slot(t, w) in a.activeVersion.Keys;
      }
    }
  }

  lemma {:induction false} RunKeepsSlots(l: Ledger, ops: seq<Op>)
    requires SlotsFilled(l.shelf)
    ensures SlotsFilled(Run(l, ops).shelf)
    decreases |ops|
  {
    if ops != [] {
      StepKeepsSlots(l, ops[0]);
      RunKeepsSlots(Step(l, ops[0]), ops[1..]);
    }
  }

  // ----- What every run leads to

  /** A start is refused exactly for a missing name, an unknown mode, workflow or tenant, or a sandbox
   *  payload not marked as such: a known tenant is never without a skill version.
   */
  lemma StartRefusedExactly(ops: seq<Op>, tenant: string, workflow: string, mode: string, payload: Payload)
    requires FreshRun(EMPTY, ops)
    ensures var s := Run(EMPTY, ops).shelf;
      StartCheck(s, tenant, workflow, mode, payload).None? <==>
        && tenant != "" && tenant in s.verticals && workflow in WORKFLOWS
        && (mode == "live" || (mode == "sandbox" && "sandbox" in payload && payload["sandbox"].printed == "true"))
    ensures StartCheck(Run(EMPTY, ops).shelf, tenant, workflow, mode, payload) == Some(InvalidInput) <==>
      tenant == "" || workflow == "" || (mode != "sandbox" && mode != "live")
    ensures StartCheck(Run(EMPTY, ops).shelf, tenant, workflow, mode, payload) == Some(SandboxContamination) <==>
      && tenant != "" && workflow != "" && mode == "sandbox"
      && !("sandbox" in payload && payload["sandbox"].printed == "true")
  {
    ReachableInv(ops);
    RunKeepsSlots(EMPTY, ops);
    ActiveVersionExists(Run(EMPTY, ops).shelf, tenant, workflow);
  }

  lemma ActiveVersionExists(s: Shelf, tenant: string, workflow: string)
    requires HistoriesLinear(s) && SlotsFilled(s)
    ensures tenant in s.verticals && workflow in WORKFLOWS ==>
      Slot(tenant, workflow) in s.activeVersion && s.activeVersion[Slot(tenant, workflow)] in s.versions
  {
    if tenant in s.verticals && workflow in WORKFLOWS {
      ActiveSlot(s, Slot(tenant, workflow));
    }
  }

  /** Siblings recommend different actions and at most one of them is under review. */
  lemma ReachableSiblings(ops: seq<Op>, i: Id, j: Id)
    requires FreshRun(EMPTY, ops)
    requires var c := Run(EMPTY, ops).learn.candidates; i in c && j in c && i != j && c[i].key == c[j].key
    ensures var c := Run(EMPTY, ops).learn.candidates;
      c[i].action != c[j].action && !(c[i].status == UnderReview && c[j].status == UnderReview)
  {
    ReachableInv(ops);
    var l := Run(EMPTY, ops).learn;
    var key := l.candidates[i].key;
    var s := Siblings(l.candidates, l.log, key);
    SiblingLaw(l, key);
    assert i in s && j in s;
    var a, b :| 0 <= a < |s| && 0 <= b < |s| && s[a] == i && s[b] == j;
    assert a < b || b < a;
  }

  /** A tenant's evidence counts sum to the number of its corrections that parsed. */
  lemma ReachableEvidence(ops: seq<Op>, tenant: string)
    requires FreshRun(EMPTY, ops)
    ensures var l := Run(EMPTY, ops).learn; EvidenceTotal(l.candidates, l.log, tenant) == |ParsedOf(l, tenant)|
  {
    ReachableInv(ops);
    EvidenceConservation(Run(EMPTY, ops).learn, tenant);
  }

  // ----- What a run never undoes

  ghost predicate RunsKept(a: Docket, b: Docket) {
    forall r :: r in a.runs ==> r in b.runs && b.runs[r].(status := "") == a.runs[r].(status := "")
  }

  ghost predicate PointsKept(a: Docket, b: Docket) {
    forall p :: p in a.points ==> p in b.points && b.points[p].(status := "") == a.points[p].(status := "")
  }

  ghost predicate CorrectionsKept(a: Learn, b: Learn) {
    && a.signals <= b.signals
    && (forall c :: c in a.corrections ==> c in b.corrections && b.corrections[c] == a.corrections[c])
    && (forall k :: k in a.correctionKeys ==> k in b.correctionKeys && b.correctionKeys[k] == a.correctionKeys[k])
  }

  /** Signals, corrections, skill versions, cases, decisions and packets stay once recorded. */
  ghost predicate Persists(a: Ledger, b: Ledger) {
    && CorrectionsKept(a.learn, b.learn)
    && VersionsKept(a.shelf, b.shelf)
    && RunsKept(a.docket, b.docket)
    && PointsKept(a.docket, b.docket)
    && (forall p :: p in a.docket.packets ==> p in b.docket.packets && b.docket.packets[p] == a.docket.packets[p])
  }

  lemma ReceivePersists(l: Learn, s: SignalId, id: Id, k: CorrectionKey, c: Correction, newId: Id, now: int)
    requires id !in l.corrections
    ensures CorrectionsKept(l, Receive(l, s, id, k, c, newId, now))
  {
  }

  lemma ReplyDocketPersists(l: Ledger, op: Op)
    requires op.Reply? && PacketSound(l.docket, op.packet)
    ensures RunsKept(l.docket, ReplyDocket(l, op)) && PointsKept(l.docket, ReplyDocket(l, op))
    ensures ReplyDocket(l, op).packets == l.docket.packets
  {
    hide RunsKept, PointsKept, CorrectionKeyOf;
    StatusPersists(l.docket, l.docket.packets[op.packet].caseRun, l.docket.packets[op.packet].point, "approved");
    StatusPersists(l.docket, l.docket.packets[op.packet].caseRun, l.docket.packets[op.packet].point, "corrected");
  }

  lemma StatusPersists(d: Docket, run: Id, point: Id, status: string)
    requires run in d.runs && point in d.points
    ensures RunsKept(d, d) && PointsKept(d, d)
    ensures RunsKept(d, SetStatus(d, run, point, status)) && PointsKept(d, SetStatus(d, run, point, status))
  {
  }

  lemma ReplyPersists(l: Ledger, op: Op)
    requires op.Reply? && Fresh(l, op)
    ensures Persists(l, StepReply(l, op))
  {
    hide Receive, CorrectionOf, ReplyDocket;
    if Admitted(l, op) {
      ReceivePersists(l.learn, SignalOf(l.docket, op), op.correction, CorrectionKeyOf(l.docket, op),
        CorrectionOf(l.docket, op), op.candidate, op.now);
      ReplyDocketPersists(l, op);
    }
  }

  lemma PromotePersists(l: Ledger, op: Op)
    requires op.PromoteCandidate? && Fresh(l, op)
    ensures Persists(l, StepPromote(l, op))
  {
    if op.candidate in l.learn.candidates {
      var c := l.learn.candidates[op.candidate];
      PromoteKeepsVersions(l.shelf, c, op.candidate, op.reviewer, op.rule, op.version, op.now);
    }
  }

  lemma ProvisionPersists(l: Ledger, op: Op)
    requires op.ProvisionTenant? && Fresh(l, op)
    ensures Persists(l, StepProvision(l, op))
  {
    hide Provision;
    ProvisionKeepsVersions(l.shelf, op.tenant, TrimSpace(op.vertical), op.quote, op.triage, op.invoice, op.now);
  }

  lemma StartPersists(l: Ledger, op: Op)
    requires op.Start? && Fresh(l, op) && StartCheck(l.shelf, op.tenant, op.workflow, op.mode, op.payload).None?
    ensures Persists(l, Step(l, op))
  {
    hide PointFor, ProposedAction;
  }

  lemma ReplayPersists(l: Ledger, op: Op)
    requires op.ReplayCase? && Fresh(l, op)
    ensures Persists(l, Step(l, op))
  {
    hide PointFor, SnapshotPayload, ReplayVersion, Decide;
  }

  lemma StepPersists(l: Ledger, op: Op)
    requires Fresh(l, op)
    ensures Persists(l, Step(l, op))
  {
    hide StepProvision, StepReply, StepPromote, StartCase, Replay, Consent;
    match op
    case ProvisionTenant(_, _, _, _, _, _, _, _, _) => ProvisionPersists(l, op);
    case Acknowledge(_, _, _, _) =>
    case Start(_, _, _, _, _, _, _) =>
      if StartCheck(l.shelf, op.tenant, op.workflow, op.mode, op.payload).None? {
        StartPersists(l, op);
      }
    case Reply(_, _, _, _, _, _, _, _, _, _, _) => ReplyPersists(l, op);
    case PromoteCandidate(_, _, _, _, _, _) => PromotePersists(l, op);
    case ReplayCase(_, _, _, _, _, _) => ReplayPersists(l, op);
  }

  lemma PersistsTransitive(a: Ledger, b: Ledger, c: Ledger)
    requires Persists(a, b) && Persists(b, c)
    ensures Persists(a, c)
  {
  }

  lemma {:induction false} RunPersists(l: Ledger, ops: seq<Op>)
    requires FreshRun(l, ops)
    ensures Persists(l, Run(l, ops))
    decreases |ops|
  {
    if ops != [] {
      StepPersists(l, ops[0]);
      RunPersists(Step(l, ops[0]), ops[1..]);
      PersistsTransitive(l, Step(l, ops[0]), Run(l, ops));
    }
  }

  /** A tenant is provisioned exactly with a name, a vertical, a number and an operator, once. */
  lemma ProvisionedExactly(l: Ledger, op: Op)
    requires op.ProvisionTenant?
    ensures var done := TrimSpace(op.name) != "" && TrimSpace(op.vertical) != "" && op.number != "" && op.operator != ""
        && op.tenant !in l.shelf.verticals;
      && Step(l, op).shelf.verticals ==
        (if done then l.shelf.verticals[op.tenant := TrimSpace(op.vertical)] else l.shelf.verticals)
      && (!done ==> Step(l, op) == l)
  {
    hide TrimSpace;
  }

  /** What the agent may choose: to hold in every workflow, and the workflow's own two. */
  lemma AllowedExactly(workflow: string, action: string)
    requires workflow in WORKFLOWS
    ensures action in AllowedActions(workflow) <==>
      || action == "hold_and_request_more_info"
      || (workflow == "invoice_handling" && (action == "apply_gst" || action == "apply_no_gst"))
      || (workflow == "enquiry_triage" && (action == "draft_reply" || action == "use_corporate_template"))
      || (workflow == "quote_drafting" && (action == "send_quote" || action == "use_corporate_template"))
  {
  }

  lemma StartSnapshots(l: Ledger, start: Op)
    requires start.Start? && Fresh(l, start)
    requires StartCheck(l.shelf, start.tenant, start.workflow, start.mode, start.payload).None?
    requires forall a :: a in l.docket.artifacts ==> l.docket.artifacts[a].caseRun != start.ids.run
    ensures SnapshotPayload(Step(l, start).docket, start.tenant, start.ids.run) == start.payload
  {
    hide ProposedAction;
  }

  // ----- Replay determinism

  /** The decision the pinned rules of a case give on the payload it was started with. */
  function PinnedDecision(l: Ledger, run: Id): (string, bool)
    requires run in l.docket.runs && l.docket.runs[run].version in l.shelf.versions
  {
    var r := l.docket.runs[run];
    Decide(r.workflow, r.payload, l.shelf.versions[r.version].manifest)
  }

  /** What a default replay needs: the case, its pinned version and its snapshot are still what they were. */
  lemma PinsLast(l: Ledger, ops: seq<Op>, tenant: string, run: Id)
    requires Inv(l) && FreshRun(l, ops) && HasRun(l.docket, tenant, run)
    ensures var m := Run(l, ops);
      && HasRun(m.docket, tenant, run) && m.docket.runs[run].(status := "") == l.docket.runs[run].(status := "")
      && l.docket.runs[run].version in l.shelf.versions && l.docket.runs[run].version in m.shelf.versions
      && m.shelf.versions[l.docket.runs[run].version].manifest == l.shelf.versions[l.docket.runs[run].version].manifest
      && m.shelf.versions[l.docket.runs[run].version].slot.tenant == tenant
      && SnapshotPayload(m.docket, tenant, run) == l.docket.runs[run].payload
  {
    hide LearnInv, ShelfInv, TenantsKnown, PacketsSound, Decide, ProposedAction, SnapshotPayload;
    assert RunSound(l.docket, l.shelf, run);
    RunPersists(l, ops);
    RunKeepsInv(l, ops);
    assert Run(l, ops).docket.runs[run].(status := "") == l.docket.runs[run].(status := "");
    SnapshotIsPayload(Run(l, ops).docket, tenant, run);
  }

  /** A default replay of a case, whatever happened since, decides as its pinned rules decided then. */
  lemma ReplayIsDeterministic(l: Ledger, ops: seq<Op>, tenant: string, run: Id, newRun: Id, newPoint: Id)
    requires Inv(l) && FreshRun(l, ops) && HasRun(l.docket, tenant, run)
    requires Fresh(Run(l, ops), ReplayCase(tenant, run, None, false, newRun, newPoint))
    ensures l.docket.runs[run].version in l.shelf.versions
    ensures var v := Step(Run(l, ops), ReplayCase(tenant, run, None, false, newRun, newPoint));
      && newRun in v.docket.runs && v.docket.runs[newRun].point == newPoint
        && v.docket.runs[newRun].replayedFrom == Some(run)
      && newPoint in v.docket.points && v.docket.points[newPoint].action == PinnedDecision(l, run).0
  {
    hide Inv, FreshRun, Run, SnapshotPayload, Decide;
    PinsLast(l, ops, tenant, run);
  }

  /** The new case is a replay of the old one against a version: its payload and workflow, the version's decision. */
  ghost predicate ReplayedAgainst(l: Ledger, v: Ledger, run: Id, version: Id, newRun: Id, newPoint: Id)
    requires run in l.docket.runs && version in l.shelf.versions
  {
    var original := l.docket.runs[run];
    && v.docket.runs == l.docket.runs[newRun :=
      CaseRun(original.tenant, original.workflow, original.payload, version, Some(run), "replayed", newPoint)]
    && newPoint in v.docket.points && v.docket.points - {newPoint} == l.docket.points - {newPoint}
    && v.docket.points[newPoint].caseRun == newRun && v.docket.points[newPoint].tenant == original.tenant
    && v.docket.points[newPoint].status == "replayed"
    && v.docket.points[newPoint].action ==
      Decide(original.workflow, original.payload, l.shelf.versions[version].manifest).0
    && v == l.(docket := l.docket.(runs := v.docket.runs, points := v.docket.points))
  }

  lemma ReplayedWith(l: Ledger, tenant: string, run: Id, named: Option<Id>, current: bool, newRun: Id, newPoint: Id,
      version: Id)
    requires Inv(l) && HasRun(l.docket, tenant, run)
    requires Fresh(l, ReplayCase(tenant, run, named, current, newRun, newPoint))
    requires version in l.shelf.versions
    requires ReplayVersion(l.docket, l.shelf, tenant, run, named, current) == Some(version)
    ensures ReplayedAgainst(l, Step(l, ReplayCase(tenant, run, named, current, newRun, newPoint)), run, version, newRun,
      newPoint)
  {
    hide LearnInv, ShelfInv, TenantsKnown, RunsSound, PacketsSound, SnapshotPayload, Decide, ReplayVersion;
    SnapshotIsPayload(l.docket, tenant, run);
  }

  /** A replay against a version named runs against that version, if it is one of the tenant. */
  lemma NamedReplay(l: Ledger, tenant: string, run: Id, version: Id, current: bool, newRun: Id, newPoint: Id)
    requires Inv(l) && HasRun(l.docket, tenant, run)
    requires Fresh(l, ReplayCase(tenant, run, Some(version), current, newRun, newPoint))
    ensures var v := Step(l, ReplayCase(tenant, run, Some(version), current, newRun, newPoint));
      if version in l.shelf.versions && l.shelf.versions[version].slot.tenant == tenant
      then ReplayedAgainst(l, v, run, version, newRun, newPoint)
      else v == l
  {
    hide Inv, ReplayedAgainst;
    if version in l.shelf.versions && l.shelf.versions[version].slot.tenant == tenant {
      hide Step, Fresh;
      ReplayedWith(l, tenant, run, Some(version), current, newRun, newPoint, version);
    }
  }

  /** A replay against the current version runs against the one active now, whatever the case was started with. */
  lemma CurrentReplay(l: Ledger, tenant: string, run: Id, newRun: Id, newPoint: Id)
    requires Inv(l) && HasRun(l.docket, tenant, run)
    requires Fresh(l, ReplayCase(tenant, run, None, true, newRun, newPoint))
    ensures var v := Step(l, ReplayCase(tenant, run, None, true, newRun, newPoint));
      var slot := Slot(tenant, l.docket.runs[run].workflow);
      if slot in l.shelf.activeVersion
      then l.shelf.activeVersion[slot] in l.shelf.versions
        && ReplayedAgainst(l, v, run, l.shelf.activeVersion[slot], newRun, newPoint)
      else v == l
  {
    var slot := Slot(tenant, l.docket.runs[run].workflow);
    if slot in l.shelf.activeVersion {
      ActiveSlot(l.shelf, slot);
    }
    hide Inv, ReplayedAgainst, HistoriesLinear;
    if slot in l.shelf.activeVersion {
      ReplayedWith(l, tenant, run, None, true, newRun, newPoint, l.shelf.activeVersion[slot]);
    }
  }

  /** Otherwise a replay runs against the version the case was started with, and there is one. */
  lemma PinnedReplay(l: Ledger, tenant: string, run: Id, newRun: Id, newPoint: Id)
    requires Inv(l) && HasRun(l.docket, tenant, run)
    requires Fresh(l, ReplayCase(tenant, run, None, false, newRun, newPoint))
    ensures l.docket.runs[run].version in l.shelf.versions
    ensures ReplayedAgainst(l, Step(l, ReplayCase(tenant, run, None, false, newRun, newPoint)), run,
      l.docket.runs[run].version, newRun, newPoint)
  {
    assert RunSound(l.docket, l.shelf, run);
    hide Inv, ReplayedAgainst, RunSound;
    ReplayedWith(l, tenant, run, None, false, newRun, newPoint, l.docket.runs[run].version);
  }

  /** Nobody replays a case that is not the tenant's own. */
  lemma ForeignReplay(l: Ledger, op: Op)
    requires op.ReplayCase? && (op.run !in l.docket.runs || l.docket.runs[op.run].tenant != op.tenant)
    ensures Step(l, op) == l
  {
  }

  /** From the start of a case to its replay, the action is repeated exactly when the agent had no say in
   *  it: it was silent, a rule fired, its proposal was not allowed, or it proposed what the rules give anyway.
   */
  lemma ReplayRepeatsTheStart(l: Ledger, start: Op, ops: seq<Op>, newRun: Id, newPoint: Id)
    requires Inv(l) && start.Start? && Fresh(l, start) && FreshRun(Step(l, start), ops)
    requires StartCheck(l.shelf, start.tenant, start.workflow, start.mode, start.payload).None?
    requires Fresh(Run(Step(l, start), ops), ReplayCase(start.tenant, start.ids.run, None, false, newRun, newPoint))
    ensures var begun := Step(l, start);
      var v := Step(Run(begun, ops), ReplayCase(start.tenant, start.ids.run, None, false, newRun, newPoint));
      var manifest := l.shelf.versions[l.shelf.activeVersion[Slot(start.tenant, start.workflow)]].manifest;
      && newPoint in v.docket.points
      && v.docket.points[newPoint].action == Decide(start.workflow, start.payload, manifest).0
      && (v.docket.points[newPoint].action == begun.docket.points[start.ids.point].action <==>
        || start.agent.None? || Decide(start.workflow, start.payload, manifest).1
        || start.agent.value !in AllowedActions(start.workflow)
        || start.agent.value == Decide(start.workflow, start.payload, manifest).0)
  {
    hide Inv, FreshRun, Run, Fresh, SnapshotPayload, Decide;
    StepKeepsInv(l, start);
    ReplayIsDeterministic(Step(l, start), ops, start.tenant, start.ids.run, newRun, newPoint);
  }

  // ----- Redelivery

  /** Once a reply has been admitted, delivering the same signal again changes nothing, ever, whatever
   *  number it comes in on.
   */
  lemma RedeliveryIsIgnored(l: Ledger, op: Op, ops: seq<Op>, again: Op)
    requires op.Reply? && Admitted(l, op) && Fresh(l, op) && FreshRun(Step(l, op), ops)
    requires again.Reply?
    requires again.packet == op.packet && again.button == op.button && again.rawMessage == op.rawMessage
    ensures Step(Run(Step(l, op), ops), again) == Run(Step(l, op), ops)
  {
    assert SignalOf(l.docket, op) in Step(l, op).learn.signals;
    RunPersists(Step(l, op), ops);
  }

  /** Once a correction has been filed, a later message that files it again, in whatever words, after
   *  whatever run, leaves every candidate, correction, rule and case as it was.
   */
  lemma DuplicateCorrectionTeachesNothing(l: Ledger, op: Op, ops: seq<Op>, again: Op)
    requires op.Reply? && op.button != Approve && Recorded(l, op) && Fresh(l, op) && FreshRun(Step(l, op), ops)
    requires again.Reply?
    requires again.packet == op.packet && again.button == op.button && again.sourceMessage == op.sourceMessage
    ensures var m := Run(Step(l, op), ops);
      Step(m, again) == m.(learn := m.learn.(signals := Step(m, again).learn.signals))
  {
    assert CorrectionKeyOf(l.docket, op) in Step(l, op).learn.correctionKeys;
    RunPersists(Step(l, op), ops);
  }

  /** Somewhere in the run such a message was admitted on the packet. */
  ghost predicate Heard(l: Ledger, ops: seq<Op>, packet: Id, button: Button, raw: string)
    decreases |ops|
  {
    && ops != []
    && ((ops[0].Reply? && Admitted(l, ops[0])
        && ops[0].packet == packet && ops[0].button == button && ops[0].rawMessage == raw)
      || Heard(Step(l, ops[0]), ops[1..], packet, button, raw))
  }

  /** Somewhere in the run a correction from such a message was filed on the packet. */
  ghost predicate Filed(l: Ledger, ops: seq<Op>, packet: Id, button: Button, source: string)
    decreases |ops|
  {
    && ops != []
    && ((ops[0].Reply? && ops[0].button != Approve && Recorded(l, ops[0])
        && ops[0].packet == packet && ops[0].button == button && ops[0].sourceMessage == source)
      || Filed(Step(l, ops[0]), ops[1..], packet, button, source))
  }

  lemma ReceiveRecords(l: Learn, s: SignalId, id: Id, k: CorrectionKey, c: Correction, newId: Id, now: int)
    ensures var v := Receive(l, s, id, k, c, newId, now);
      && v.signals == l.signals + {s}
      && v.correctionKeys.Keys == l.correctionKeys.Keys + (if s in l.signals || c.button == Approve then {} else {k})
  {
    hide KeyOf, StatusFor;
  }

  lemma StepRecords(l: Ledger, op: Op, s: SignalId, k: CorrectionKey)
    ensures s in Step(l, op).learn.signals <==>
      s in l.learn.signals || (op.Reply? && Admitted(l, op) && SignalOf(l.docket, op) == s)
    ensures k in Step(l, op).learn.correctionKeys <==>
      k in l.learn.correctionKeys
      || (op.Reply? && op.button != Approve && Recorded(l, op) && CorrectionKeyOf(l.docket, op) == k)
  {
    hide ReplyDocket, Receive, StartCase, Replay, Consent, Promote, Provision, StartCheck;
    if op.Reply? && Admitted(l, op) {
      ReceiveRecords(l.learn, SignalOf(l.docket, op), op.correction, CorrectionKeyOf(l.docket, op),
        CorrectionOf(l.docket, op), op.candidate, op.now);
    }
  }

  /** The packet, once there, has this tenant and this decision. */
  predicate IsOf(l: Ledger, packet: Id, tenant: string, point: Id) {
    packet in l.docket.packets ==> l.docket.packets[packet].tenant == tenant && l.docket.packets[packet].point == point
  }

  lemma WasOf(l: Ledger, ops: seq<Op>, packet: Id, tenant: string, point: Id)
    requires FreshRun(l, ops) && IsOf(Run(l, ops), packet, tenant, point)
    ensures IsOf(l, packet, tenant, point)
  {
    RunPersists(l, ops);
  }

  lemma {:induction false} HeardExactly(l: Ledger, ops: seq<Op>, s: SignalId, point: Id)
    requires FreshRun(l, ops) && IsOf(Run(l, ops), s.packet, s.tenant, point)
    ensures s in Run(l, ops).learn.signals <==>
      s in l.learn.signals || Heard(l, ops, s.packet, s.button, s.rawMessage)
    decreases |ops|
  {
    if ops != [] {
      WasOf(l, ops, s.packet, s.tenant, point);
      hide Step, Fresh;
      StepRecords(l, ops[0], s, CorrectionKey(s.tenant, point, s.packet, s.button, ""));
      HeardExactly(Step(l, ops[0]), ops[1..], s, point);
    }
  }

  lemma {:induction false} FiledExactly(l: Ledger, ops: seq<Op>, k: CorrectionKey)
    requires FreshRun(l, ops) && IsOf(Run(l, ops), k.packet, k.tenant, k.point)
    ensures k in Run(l, ops).learn.correctionKeys <==>
      k in l.learn.correctionKeys || Filed(l, ops, k.packet, k.button, k.sourceMessage)
    decreases |ops|
  {
    if ops != [] {
      WasOf(l, ops, k.packet, k.tenant, k.point);
      hide Step, Fresh;
      StepRecords(l, ops[0], SignalId(k.tenant, k.packet, k.button, ""), k);
      FiledExactly(Step(l, ops[0]), ops[1..], k);
    }
  }

  /** After any run a reply has an effect exactly when it is admitted, the same message has not been admitted on
   *  its packet before, and, being no approval, nothing was filed from its source message there.
   */
  lemma RecordedExactly(ops: seq<Op>, op: Op)
    requires FreshRun(EMPTY, ops) && op.Reply?
    ensures Recorded(Run(EMPTY, ops), op) <==>
      && Admitted(Run(EMPTY, ops), op)
      && !Heard(EMPTY, ops, op.packet, op.button, op.rawMessage)
      && (op.button == Approve || !Filed(EMPTY, ops, op.packet, op.button, op.sourceMessage))
  {
    var e := Run(EMPTY, ops);
    if Admitted(e, op) {
      HeardExactly(EMPTY, ops, SignalOf(e.docket, op), e.docket.packets[op.packet].point);
      FiledExactly(EMPTY, ops, CorrectionKeyOf(e.docket, op));
    }
  }

  /** A reply that has an effect marks its case and the decision, as approved or as corrected; one that has none
   *  touches no case.
   */
  lemma ReplyMarks(l: Ledger, op: Op)
    requires op.Reply?
    ensures !Recorded(l, op) ==> Step(l, op).docket == l.docket
    ensures Recorded(l, op) ==>
      var p, status := l.docket.packets[op.packet], if op.button == Approve then "approved" else "corrected";
      Step(l, op).docket == l.docket.(
        runs := l.docket.runs[p.caseRun := l.docket.runs[p.caseRun].(status := status)],
        points := l.docket.points[p.point := l.docket.points[p.point].(status := status)])
  {
    hide ReplyLearn;
  }

  /** A started case waits for approval on the version active now, keeps its payload as it came, and its packet
   *  can be answered for forty-eight hours on a number of the tenant.
   */
  lemma StartOpens(l: Ledger, start: Op, reply: Op)
    requires Inv(l) && start.Start? && Fresh(l, start) && reply.Reply? && reply.packet == start.ids.packet
    requires StartCheck(l.shelf, start.tenant, start.workflow, start.mode, start.payload).None?
    ensures var v := Step(l, start);
      && v.docket.runs - {start.ids.run} == l.docket.runs - {start.ids.run}
      && start.ids.run in v.docket.runs && start.ids.point in v.docket.points
      && v.docket.runs[start.ids.run] == CaseRun(start.tenant, start.workflow, start.payload,
        l.shelf.activeVersion[Slot(start.tenant, start.workflow)], None, "waiting_for_approval", start.ids.point)
      && v.docket.points[start.ids.point].status == "waiting_for_approval"
      && v.docket.points[start.ids.point].input == start.payload["workflow_slug" := Text(start.workflow)]
      && v.docket.points[start.ids.point].decisionType ==
        (if start.workflow == "invoice_handling" then "tax_treatment"
         else if start.workflow == "enquiry_triage" then "route_or_reply" else "send_or_hold")
      && SnapshotPayload(v.docket, start.tenant, start.ids.run) == start.payload
      && (Admitted(v, reply) <==>
        && reply.provider in l.bindings && l.bindings[reply.provider].tenant == start.tenant
        && reply.now <= start.now + 172800)
  {
    hide LearnInv, ShelfInv, TenantsKnown, RunsSound, PacketsSound, ProposedAction, SnapshotPayload;
    StartSnapshots(l, start);
  }

  /** A correction is filed under the workflow its case was started with, and under that workflow's decision. */
  lemma FiledUnderItsCase(l: Ledger, op: Op)
    requires Inv(l) && op.Reply? && Admitted(l, op)
    ensures var c := CorrectionOf(l.docket, op);
      && c.caseRun in l.docket.runs && c.workflow == l.docket.runs[c.caseRun].workflow
      && c.decisionType == WorkflowDecision(c.workflow).0
  {
    hide LearnInv, ShelfInv, TenantsKnown, SnapshotsSound;
    var packet := l.docket.packets[op.packet];
    var run := l.docket.runs[packet.caseRun];
    assert RunSound(l.docket, l.shelf, packet.caseRun);
    WorkflowSurvives(run.payload, run.workflow);
  }

  // ----- Contradictions stay

  /** Candidates stay, with no fewer contradictions. */
  ghost predicate ContradictionsKept(a: Learn, b: Learn) {
    forall i :: i in a.candidates ==>
      i in b.candidates && b.candidates[i].contradicting >= a.candidates[i].contradicting
  }

  lemma ReceiveKeepsContradictions(l: Learn, s: SignalId, id: Id, k: CorrectionKey, c: Correction, newId: Id, now: int)
    requires newId !in l.candidates
    ensures ContradictionsKept(l, Receive(l, s, id, k, c, newId, now))
  {
    hide CanonicalizeConditions, StatusFor;
  }

  lemma StepKeepsContradictions(l: Ledger, op: Op)
    requires Fresh(l, op)
    ensures ContradictionsKept(l.learn, Step(l, op).learn)
  {
    hide Receive, StartCase, Promote, Replay, Consent, Provision, ReplyDocket;
    if op.Reply? && Admitted(l, op) {
      ReceiveKeepsContradictions(l.learn, SignalOf(l.docket, op), op.correction, CorrectionKeyOf(l.docket, op),
        CorrectionOf(l.docket, op), op.candidate, op.now);
    }
  }

  lemma {:induction false} RunKeepsContradictions(l: Ledger, ops: seq<Op>)
    requires FreshRun(l, ops)
    ensures ContradictionsKept(l.learn, Run(l, ops).learn)
    decreases |ops|
  {
    if ops != [] {
      StepKeepsContradictions(l, ops[0]);
      RunKeepsContradictions(Step(l, ops[0]), ops[1..]);
    }
  }

  /** A candidate contradicted once is never under review again, whatever evidence comes. */
  lemma ContradictedNeverReturns(l: Ledger, ops: seq<Op>, m: Id)
    requires Inv(l) && FreshRun(l, ops) && m in l.learn.candidates && l.learn.candidates[m].contradicting > 0
    ensures m in Run(l, ops).learn.candidates && Run(l, ops).learn.candidates[m].status != UnderReview
  {
    RunKeepsInv(l, ops);
    RunKeepsContradictions(l, ops);
    assert CandidateOk(Run(l, ops).learn.candidates[m]);
  }

  // ----- How long a candidate stays promoted

  /** The reply files a new correction that either supports the candidate or, supporting no sibling of it,
   *  contradicts it.
   */
  ghost predicate Overwrites(l: Ledger, op: Op, m: Id) {
    && op.Reply? && op.button != Approve && Recorded(l, op) && m in l.learn.candidates
    && BearsOn(l.learn, CorrectionOf(l.docket, op), m)
  }

  lemma ReplyOverwrites(l: Ledger, op: Op, m: Id)
    requires LearnInv(l.learn) && op.Reply? && Fresh(l, op) && Recorded(l, op)
    requires m in l.learn.candidates && l.learn.candidates[m].status == Promoted
    ensures m in ReplyLearn(l, op).candidates
    ensures ReplyLearn(l, op).candidates[m].status != Promoted <==>
      op.button != Approve && BearsOn(l.learn, CorrectionOf(l.docket, op), m)
  {
    hide LearnInv, Receive, BearsOn;
    ReceiveOverwrites(l.learn, SignalOf(l.docket, op), op.correction, CorrectionKeyOf(l.docket, op),
      CorrectionOf(l.docket, op), op.candidate, op.now, m);
  }

  /** A duplicate correction is seen and goes no further. */
  lemma UnrecordedKeepsCandidates(l: Ledger, op: Op)
    requires op.Reply? && !Recorded(l, op)
    ensures Step(l, op).learn.candidates == l.learn.candidates
  {
    hide Merge;
  }

  /** One operation takes the promoted status away exactly when it is a reply that files a new correction for
   *  the candidate or against it; the rule it was promoted to stays active all the while.
   */
  lemma PromotedIsLostExactly(l: Ledger, op: Op, m: Id)
    requires Inv(l) && Fresh(l, op) && m in l.learn.candidates && l.learn.candidates[m].status == Promoted
    ensures m in Step(l, op).learn.candidates
    ensures Step(l, op).learn.candidates[m].status != Promoted <==> Overwrites(l, op, m)
    ensures Overwrites(l, op, m) ==> Step(l, op).shelf == l.shelf
  {
    hide LearnInv, ShelfInv, DocketInv, TenantsKnown, BearsOn, ReplyLearn, ReplyDocket, StartCase, Replay, Consent,
      Promote, Provision;
    if op.Reply? {
      if Recorded(l, op) {
        ReplyOverwrites(l, op, m);
      } else {
        UnrecordedKeepsCandidates(l, op);
      }
    }
  }

  ghost predicate AlwaysPromoted(l: Ledger, ops: seq<Op>, m: Id)
    decreases |ops|
  {
    && m in l.learn.candidates && l.learn.candidates[m].status == Promoted
    && (ops == [] || AlwaysPromoted(Step(l, ops[0]), ops[1..], m))
  }

  ghost predicate NeverOverwritten(l: Ledger, ops: seq<Op>, m: Id)
    decreases |ops|
  {
    ops == [] || (!Overwrites(l, ops[0], m) && NeverOverwritten(Step(l, ops[0]), ops[1..], m))
  }

  /** A promoted candidate stays promoted throughout a run exactly when no reply of the run bears on it. */
  lemma {:induction false} StaysPromotedExactly(l: Ledger, ops: seq<Op>, m: Id)
    requires Inv(l) && FreshRun(l, ops) && m in l.learn.candidates && l.learn.candidates[m].status == Promoted
    ensures AlwaysPromoted(l, ops, m) <==> NeverOverwritten(l, ops, m)
    decreases |ops|
  {
    if ops != [] {
      hide Inv, Fresh, Step, Overwrites;
      PromotedIsLostExactly(l, ops[0], m);
      StepKeepsInv(l, ops[0]);
      if !Overwrites(l, ops[0], m) {
        StaysPromotedExactly(Step(l, ops[0]), ops[1..], m);
      }
    }
  }
}
