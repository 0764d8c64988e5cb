/** The application as an object over its three stores (internal/app/app.go). Every method takes the
 *  ledger exactly one `Step`.
 */
module App {
  import opened Bindings
  import opened CandidateStore
  import opened CaseStore
  import opened Cases
  import opened Conditions
  import opened Confidence
  import opened CorrectionLoop
  import opened Learning
  import opened RuleStore
  import opened Rules
  import opened Strings

  predicate CanReplay(l: Ledger, tenant: string, run: Id, named: Option<Id>, current: bool) {
    HasRun(l.docket, tenant, run) && ReplayVersion(l.docket, l.shelf, tenant, run, named, current).Some?
  }

  class App {
    const candidates: CandidateStore
    const rules: RuleStore
    const cases: CaseStore
    var bindings: Table

    ghost function State(): Ledger
      reads this, candidates, rules, cases
    {
      Ledger(candidates.State(), rules.State(), cases.State(), bindings)
    }

    ghost predicate Valid()
      reads this, candidates, rules, cases
    {
      candidates.Valid() && rules.Valid() && Inv(State())
    }

    constructor (math: Math)
      requires math.Lawful()
      ensures Valid() && State() == EMPTY && fresh(candidates) && fresh(rules) && fresh(cases)
    {
      candidates := new CandidateStore(math);
      rules := new RuleStore();
      cases := new CaseStore();
      bindings := map[];
      new;
      EmptyInv();
    }

    method ProvisionTenant(op: Op) returns (ok: bool)
      requires op.ProvisionTenant? && Valid() && Fresh(State(), op)
      modifies this`bindings, rules
      ensures Valid() && State() == Step(old(State()), op) && ok == Provisions(old(State()), op)
    {
      hide LearnInv, ShelfInv, DocketInv, TenantsKnown, OnePerChannel, Provision;
      StepKeepsInv(State(), op);
      var name, vertical := TrimSpace(op.name), TrimSpace(op.vertical);
      if name == "" || vertical == "" || op.number == "" || op.operator == "" {
        return false;
      }
      if op.tenant in rules.tenants {
        return false;
      }
      NothingFiledYet(State(), op.tenant);
      rules.ProvisionTenant(op.tenant, vertical, op.quote, op.triage, op.invoice, op.now);
      bindings := bindings[Telegram(op.number) := Binding(op.tenant, ReadOnly, "", "")];
      bindings := bindings[WhatsApp(op.number) := Binding(op.tenant, ReadOnly, "", NormalizeJid(op.number))];
      return true;
    }

    /** The WhatsApp binding of a tenant, whatever order the map is scanned in: there is at most one. */
    method WhatsAppBindingByTenant(tenant: string) returns (p: Option<Provider>)
      requires OnePerChannel(bindings)
      ensures p.Some? <==> HasWhatsApp(bindings, tenant)
      ensures p.Some? ==> IsWhatsAppOf(bindings, p.value, tenant) && p.value == TheWhatsApp(bindings, tenant)
    {
      var rest := bindings.Keys;
      while rest != {}
        invariant rest <= bindings.Keys
        invariant forall q :: IsWhatsAppOf(bindings, q, tenant) ==> q in rest
        decreases |rest|
      {
        var q :| q in rest;
        if bindings[q].tenant == tenant && q.channel == "whatsapp" {
          assert IsWhatsAppOf(bindings, q, tenant);
          return Some(q);
        }
        rest := rest - {q};
      }
      return None;
    }

    method AcknowledgeWhatsAppConsent(op: Op) returns (ok: bool)
      requires op.Acknowledge? && Valid()
      modifies this`bindings
      ensures Valid() && State() == Step(old(State()), op)
      ensures ok <==> HasWhatsApp(old(bindings), op.tenant) && ParseMode(op.inboundMode).Some?
    {
      hide LearnInv, ShelfInv, DocketInv;
      StepKeepsInv(State(), op);
      var p := WhatsAppBindingByTenant(op.tenant);
      var mode := ParseMode(op.inboundMode);
      if p.None? || mode.None? {
        return false;
      }
      var binding := bindings[p.value].(mode := mode.value);
      if op.operatorJid != "" {
        binding := binding.(operatorJid := NormalizeJid(op.operatorJid));
      }
      if binding.operatorJid == "" {
        binding := binding.(operatorJid := NormalizeJid(p.value.number));
      }
      if op.draft != "" {
        binding := binding.(draftJid := NormalizeJid(op.draft));
      }
      if binding.draftJid == "" && mode.value == ReadOnly {
        binding := binding.(draftJid := binding.operatorJid);
      }
      bindings := bindings[p.value := binding];
      return true;
    }

    /** The checks StartCase makes, in order. */
    method CheckStart(tenant: string, workflow: string, mode: string, payload: Payload) returns (error: Option<Error>)
      ensures error == StartCheck(rules.State(), tenant, workflow, mode, payload)
    {
      if tenant == "" || workflow == "" || (mode != "sandbox" && mode != "live") {
        return Some(InvalidInput);
      }
      if mode == "sandbox" && !IsTrue(payload, "sandbox") {
        return Some(SandboxContamination);
      }
      if tenant !in rules.tenants || workflow !in WORKFLOWS {
        return Some(NotFound);
      }
      var slot := Slot(tenant, workflow);
      if slot !in rules.activeSV || rules.activeSV[slot] !in rules.skillVersions {
        return Some(NotFound);
      }
      return None;
    }

    method StartCase(op: Op) returns (error: Option<Error>)
      requires op.Start? && Valid() && Fresh(State(), op)
      modifies cases
      ensures Valid() && State() == Step(old(State()), op)
      ensures error == StartCheck(old(State()).shelf, op.tenant, op.workflow, op.mode, op.payload)
    {
      hide Inv, LearnInv, ShelfInv;
      StepKeepsInv(State(), op);
      error := CheckStart(op.tenant, op.workflow, op.mode, op.payload);
      if error.None? {
        OpenCase(op.tenant, op.workflow, op.payload, op.agent, op.ids, op.now);
      }
    }

    /** StartCase past its checks: decide, then store the case and what belongs to it. */
    method OpenCase(tenant: string, workflow: string, payload: Payload, agent: Option<string>, ids: StartIds, now: int)
      requires Slot(tenant, workflow) in rules.activeSV
      requires rules.activeSV[Slot(tenant, workflow)] in rules.skillVersions
      modifies cases
      ensures cases.State() ==
        Cases.StartCase(old(cases.State()), rules.State(), tenant, workflow, payload, agent, ids, now)
    {
      var version := rules.activeSV[Slot(tenant, workflow)];
      var action, ruleMatched := EvaluateDecision(workflow, payload, rules.skillVersions[version].manifest);
      if agent.Some? && !ruleMatched && agent.value in AllowedActions(workflow) {
        action := agent.value;
      }
      var status := "waiting_for_approval";
      cases.CreateCaseRun(ids.run, CaseRun(tenant, workflow, payload, version, None, status, ids.point));
      cases.CreateDecisionPoint(ids.point, PointFor(ids.run, tenant, workflow, payload, action, status));
      cases.CreateArtifact(ids.draft, Artifact(tenant, ids.run, false, map[]));
      cases.CreateArtifact(ids.snapshot, Artifact(tenant, ids.run, true, payload));
      cases.CreateReviewPacket(ids.packet, ReviewPacket(tenant, ids.run, ids.point, now + PACKET_LIFETIME));
    }

    method SkillVersionFor(tenant: string, run: Id, named: Option<Id>, current: bool) returns (version: Option<Id>)
      requires run in cases.caseRuns
      ensures version == ReplayVersion(cases.State(), rules.State(), tenant, run, named, current)
    {
      var slot := Slot(tenant, cases.caseRuns[run].workflow);
      if named.Some? {
        version := named;
      } else if current {
        if slot in rules.activeSV && rules.activeSV[slot] in rules.skillVersions {
          return Some(rules.activeSV[slot]);
        }
        return None;
      } else {
        version := Some(cases.caseRuns[run].version);
      }
      if version.value !in rules.skillVersions || rules.skillVersions[version.value].slot.tenant != tenant {
        version := None;
      }
    }

    method ReplayCase(op: Op) returns (ok: bool)
      requires op.ReplayCase? && Valid() && Fresh(State(), op)
      modifies cases
      ensures Valid() && State() == Step(old(State()), op)
      ensures ok == CanReplay(old(State()), op.tenant, op.run, op.named, op.current)
    {
      hide Inv, LearnInv, ShelfInv;
      StepKeepsInv(State(), op);
      ok := Rerun(op.tenant, op.run, op.named, op.current, op.newRun, op.newPoint);
    }

    method Rerun(tenant: string, run: Id, named: Option<Id>, current: bool, newRun: Id, newPoint: Id) returns (ok: bool)
      modifies cases
      ensures cases.State() == Replay(old(cases.State()), rules.State(), tenant, run, named, current, newRun, newPoint)
      ensures ok == CanReplay(old(State()), tenant, run, named, current)
    {
      if run !in cases.caseRuns || cases.caseRuns[run].tenant != tenant {
        return false;
      }
      var version := SkillVersionFor(tenant, run, named, current);
      if version.None? {
        return false;
      }
      var workflow := cases.caseRuns[run].workflow;
      var payload := cases.SnapshotContent(tenant, run);
      var action, _ := EvaluateDecision(workflow, payload, rules.skillVersions[version.value].manifest);
      cases.CreateCaseRun(newRun, CaseRun(tenant, workflow, payload, version.value, Some(run), "replayed", newPoint));
      cases.CreateDecisionPoint(newPoint, PointFor(newRun, tenant, workflow, payload, action, "replayed"));
      return true;
    }

    /** `recorded`: the reply was admitted and is a first approval message or a new correction. */
    method ReceiveOperatorReply(op: Op) returns (recorded: bool)
      requires op.Reply? && Valid() && Fresh(State(), op)
      modifies candidates, cases
      ensures Valid() && State() == Step(old(State()), op)
      ensures recorded <==> Recorded(old(State()), op)
    {
      hide LearnInv, ShelfInv, RunsSound, SnapshotsSound, TenantsKnown;
      StepKeepsInv(State(), op);
      if op.provider !in bindings || op.packet !in cases.packets {
        return false;
      }
      var tenant, packet := bindings[op.provider].tenant, cases.packets[op.packet];
      if packet.tenant != tenant || op.now > packet.expiresAt {
        return false;
      }
      assert PacketSound(cases.State(), op.packet);
      recorded := PersistSignal(op, tenant, packet);
    }

    method PersistSignal(op: Op, tenant: string, packet: ReviewPacket) returns (recorded: bool)
      requires op.Reply? && candidates.Valid() && PacketSound(cases.State(), op.packet)
      requires packet == cases.packets[op.packet] && packet.tenant == tenant
      requires op.correction !in candidates.corrections && op.candidate !in candidates.candidates
      modifies candidates, cases
      ensures candidates.Valid()
      ensures var l := old(State());
        && candidates.State() == ReplyLearn(l, op)
        && cases.State() == (if SignalOf(l.docket, op) in l.learn.signals then l.docket else ReplyDocket(l, op))
        && recorded == (SignalOf(l.docket, op) !in l.learn.signals
          && (op.button == Approve || CorrectionKeyOf(l.docket, op) !in l.learn.correctionKeys))
    {
      hide LearnInv, Receive;
      var point := cases.decisionPoints[packet.point];
      var correction := Correction(tenant, op.packet, packet.caseRun, packet.point, WorkflowFromInput(point.input),
        point.decisionType, op.button, op.conditions, op.action, op.scopeHint);
      var key := CorrectionKey(tenant, packet.point, op.packet, op.button, op.sourceMessage);
      recorded := candidates.PersistSignal(
        SignalId(tenant, op.packet, op.button, op.rawMessage), op.correction, key, correction, op.candidate, op.now);
      if recorded {
        var status := if op.button == Approve then "approved" else "corrected";
        var found := cases.UpdateDecisionPointStatus(tenant, packet.point, status);
        found := cases.UpdateCaseRunStatus(tenant, packet.caseRun, status);
      }
    }

    method PromoteCandidate(op: Op) returns (ok: bool)
      requires op.PromoteCandidate? && Valid() && Fresh(State(), op)
      modifies candidates, rules
      ensures Valid() && State() == Step(old(State()), op) && ok == Promotes(old(State()), op)
    {
      hide Inv, LearnInv, ShelfInv;
      StepKeepsInv(State(), op);
      if op.tenant == "" || op.reviewer == "" || op.candidate !in candidates.candidates {
        return false;
      }
      var candidate := candidates.candidates[op.candidate];
      if candidate.key.tenant != op.tenant {
        return false;
      }
      CandidateIsKnown(State(), op.candidate);
      rules.PromoteRule(candidate, op.candidate, op.reviewer, op.rule, op.version, op.now);
      candidates.MarkPromoted(op.candidate);
      return true;
    }
  }

  lemma CandidateIsKnown(l: Ledger, m: Id)
    requires Inv(l) && m in l.learn.candidates
    ensures l.learn.candidates[m].key.tenant in l.shelf.verticals
  {
  }
}
