/** The approval and outbound tables as an object on top of the application, with the scans of
 *  internal/store/memory/store.go and the steps of internal/app/app.go, proved against `CustomerOutbound`.
 */
module CustomerDesk {
  import opened App
  import opened Bindings
  import opened Cases
  import opened Confidence
  import opened CustomerOutbound
  import opened Learning

  /** No audit among the seen ones approves the decision. */
  ghost predicate NoneApproves(audits: map<Id, Audit>, unseen: set<Id>, key: AuditKey) {
    forall i :: i in audits && i !in unseen ==> KeyOfAudit(audits[i]) != key
  }

  /** Once the correction loop has taken a reply, its approval can be audited and sent. */
  lemma ReplyLeavesDesk(d: Desk, op: L.Op, audit: Id, out: Id, answers: Answers)
    requires op.Reply? && Inv(d) && Fresh(d, Loop(op, audit, out, answers))
    ensures Inv(Step(d, Loop(op, audit, out, answers)))
    ensures var v := d.(ledger := L.Step(d.ledger, op));
      && AuditsKeyed(v) && RowsKeyed(v) && OnePerChannel(v.ledger.bindings)
      && forall p :: p in d.ledger.docket.packets ==>
        p in v.ledger.docket.packets && v.ledger.docket.packets[p] == d.ledger.docket.packets[p]
  {
    LoopStepKeepsInv(d, Loop(op, audit, out, answers));
    hide L.Step, L.Inv, OnePerChannel;
    LedgerStepKeepsInv(d, op);
    L.BindingsAreUnique(L.Step(d.ledger, op));
    PacketsStay(d.ledger, op);
  }

  class CustomerDesk {
    const app: App
    var audits: map<Id, Audit>
    var auditByKey: map<AuditKey, Id>
    var customerOut: map<Id, Outbound>
    var outByKey: map<OutKey, Id>
    ghost var sends: seq<Outbound>
    ghost var drafts: seq<Draft>

    ghost function State(): Desk
      reads this, app, app.candidates, app.rules, app.cases
    {
      Desk(app.State(), audits, auditByKey, customerOut, outByKey, sends, drafts)
    }

    ghost predicate Valid()
      reads this, app, app.candidates, app.rules, app.cases
    {
      app.Valid() && DeskInv(State())
    }

    constructor (math: Math)
      requires math.Lawful()
      ensures Valid() && State() == EMPTY
      ensures fresh(app) && fresh(app.candidates) && fresh(app.rules) && fresh(app.cases)
    {
      hide L.Inv;
      app := new App(math);
      audits, auditByKey, customerOut, outByKey, sends, drafts := map[], map[], map[], map[], [], [];
    }

    method CreateAuditEvent(id: Id, a: Audit)
      modifies this`audits, this`auditByKey
      ensures State() == RecordApproval(old(State()), id, a)
    {
      if KeyOfAudit(a) in auditByKey {
        return;
      }
      audits := audits[id := a];
      auditByKey := auditByKey[KeyOfAudit(a) := id];
    }

    /** Any approval of the decision, whatever order the map is scanned in: there is at most one. */
    method ApprovalAuditID(tenant: string, caseRun: Id, point: Id) returns (id: Option<Id>)
      requires AuditsKeyed(State())
      ensures id.Some? <==> AuditKey(tenant, caseRun, point) in auditByKey
      ensures id.Some? ==> id.value == auditByKey[AuditKey(tenant, caseRun, point)]
    {
      ghost var key := AuditKey(tenant, caseRun, point);
      var rest := audits.Keys;
      while rest != {}
        invariant rest <= audits.Keys && NoneApproves(audits, rest, key)
        decreases |rest|
      {
        var i :| i in rest;
        if audits[i].tenant == tenant && audits[i].point == point && audits[i].caseRun == caseRun {
          return Some(i);
        }
        rest := rest - {i};
      }
      return None;
    }

    method UpsertOutboundToCustomer(id: Id, out: Outbound) returns (created: bool, stored: Outbound)
      requires KeyOfOut(out) in outByKey ==> outByKey[KeyOfOut(out)] in customerOut
      modifies this`customerOut, this`outByKey
      ensures State() == Upsert(old(State()), id, out)
      ensures KeyOfOut(out) in outByKey && outByKey[KeyOfOut(out)] in customerOut
      ensures stored == customerOut[outByKey[KeyOfOut(out)]]
      ensures created <==> KeyOfOut(out) !in old(outByKey)
    {
      var key := KeyOfOut(out);
      if key in outByKey {
        var existing := customerOut[outByKey[key]];
        if existing.status != Sent && out.status == Sent {
          customerOut := customerOut[outByKey[key] := out];
          return false, out;
        }
        return false, existing;
      }
      customerOut := customerOut[id := out];
      outByKey := outByKey[key := id];
      return true, out;
    }

    method SendApprovedCustomerReply(tenant: string, caseRun: Id, out: Id, answers: Answers) returns (outcome: Outcome)
      requires AuditsKeyed(State()) && RowsKeyed(State()) && OnePerChannel(app.bindings)
      modifies this`customerOut, this`outByKey, this`sends, this`drafts
      ensures State() == SendApproved(old(State()), tenant, caseRun, out, answers)
      ensures outcome == OutcomeOf(old(State()), tenant, caseRun, answers)
    {
      hide AuditsKeyed, RowsKeyed, DraftBody, OnePerChannel, HasWhatsApp;
      if caseRun !in app.cases.caseRuns || app.cases.caseRuns[caseRun].tenant != tenant {
        return Unknown;
      }
      var provider := app.WhatsAppBindingByTenant(tenant);
      if provider.None? {
        return Unknown;
      }
      var run := app.cases.caseRuns[caseRun];
      if app.bindings[provider.value].mode == ReadOnly {
        outcome := SendDrafts(tenant, caseRun, provider.value, DraftBody(run), answers);
        return;
      }
      outcome := SendToCustomer(run, caseRun, out, answers);
    }

    /** Read-only mode: the instruction, then the draft, to the address the binding names. */
    method SendDrafts(tenant: string, caseRun: Id, p: Provider, body: Body, answers: Answers)
      returns (outcome: Outcome)
      requires HasWhatsApp(app.bindings, tenant) && p == TheWhatsApp(app.bindings, tenant)
      modifies this`drafts
      ensures State() == old(State()).(drafts := drafts)
      ensures drafts == old(drafts) + DraftsWith(old(State()), tenant, caseRun, body, answers)
      ensures outcome == if answers.first && answers.second then DraftDelivered else DraftFailed
    {
      hide HasWhatsApp, NormalizeJid;
      var binding := app.bindings[p];
      var recipient := binding.draftJid;
      if recipient == "" {
        recipient := binding.operatorJid;
      }
      if recipient == "" {
        recipient := p.number;
      }
      if recipient == "" {
        recipient := NormalizeJid(p.number);
      }
      if !answers.first {
        return DraftFailed;
      }
      drafts := drafts + [Draft(tenant, caseRun, recipient, Instruction)];
      if !answers.second {
        return DraftFailed;
      }
      drafts := drafts + [Draft(tenant, caseRun, recipient, Reply(body))];
      return DraftDelivered;
    }

    /** Full control: nothing without an approval and a customer. */
    method SendToCustomer(run: CaseRun, caseRun: Id, out: Id, answers: Answers) returns (outcome: Outcome)
      requires AuditsKeyed(State()) && RowsKeyed(State())
      requires HasRun(app.cases.State(), run.tenant, caseRun) && run == app.cases.caseRuns[caseRun]
      requires HasWhatsApp(app.bindings, run.tenant) && BindingOf(State(), run.tenant).mode == FullControl
      modifies this`customerOut, this`outByKey, this`sends
      ensures State() == SendApproved(old(State()), run.tenant, caseRun, out, answers)
      ensures outcome == OutcomeOf(old(State()), run.tenant, caseRun, answers)
    {
      hide AuditsKeyed, RowsKeyed, HasWhatsApp, DraftBody;
      var approval := ApprovalAuditID(run.tenant, caseRun, run.point);
      if approval.None? {
        return ApprovalRequired;
      }
      if CustomerOf(run) == "" {
        return NoRecipient;
      }
      outcome := SendMessage(run, caseRun, approval.value, out, answers);
    }

    /** The sending half: queue the row, call the adapter, mark the row. */
    method SendMessage(run: CaseRun, caseRun: Id, approval: Id, out: Id, answers: Answers) returns (outcome: Outcome)
      requires RowsKeyed(State())
      requires HasRun(app.cases.State(), run.tenant, caseRun) && run == app.cases.caseRuns[caseRun]
      requires AuditKey(run.tenant, caseRun, run.point) in auditByKey
      requires approval == auditByKey[AuditKey(run.tenant, caseRun, run.point)] && CustomerOf(run) != ""
      requires HasWhatsApp(app.bindings, run.tenant) && BindingOf(State(), run.tenant).mode == FullControl
      modifies this`customerOut, this`outByKey, this`sends
      ensures State() == SendApproved(old(State()), run.tenant, caseRun, out, answers)
      ensures outcome == OutcomeOf(old(State()), run.tenant, caseRun, answers)
    {
      hide HasWhatsApp, DraftBody, NormalizeJid, DraftsTo;
      var message := Message(run, caseRun, approval, Queued);
      var created, stored := UpsertOutboundToCustomer(out, message);
      if !created && stored.status == Sent {
        return AlreadySent;
      }
      if !answers.first {
        return Failed;
      }
      sends := sends + [message.(status := Sent)];
      created, stored := UpsertOutboundToCustomer(out, message.(status := Sent));
      return Delivered;
    }

    /** SendApprovedCustomerReply on its own, as a retry. */
    method RetrySend(tenant: string, caseRun: Id, out: Id, answers: Answers) returns (outcome: Outcome)
      requires Valid() && out !in customerOut
      modifies this`customerOut, this`outByKey, this`sends, this`drafts
      ensures Valid() && State() == Step(old(State()), Retry(tenant, caseRun, out, answers))
      ensures outcome == OutcomeOf(old(State()), tenant, caseRun, answers)
    {
      hide SendsMatchRows, MessageSound, CameFromReply;
      SendKeepsDesk(State(), tenant, caseRun, out, answers);
      SendLeavesLedger(State(), tenant, caseRun, out, answers);
      outcome := SendApprovedCustomerReply(tenant, caseRun, out, answers);
    }

    /** An operator's reply; an approval is audited and its draft sent, a correction may have a draft too. */
    method ReceiveOperatorReply(op: L.Op, audit: Id, out: Id, answers: Answers)
      requires op.Reply? && Valid() && Fresh(State(), Loop(op, audit, out, answers))
      modifies this, app.candidates, app.cases
      ensures Valid() && State() == Step(old(State()), Loop(op, audit, out, answers))
    {
      hide OnePerChannel, L.Step, L.Inv, L.Fresh, AuditsKeyed, RowsKeyed, SendsMatchRows, MessageSound, CameFromReply,
        ApproveAndSend, DraftCorrection;
      ReplyLeavesDesk(State(), op, audit, out, answers);
      ghost var before := app.State();
      var recorded := app.ReceiveOperatorReply(op);
      if recorded && op.button == Approve {
        PersistApproval(op, before, audit, out, answers);
      } else if recorded && op.conditions != [] && op.action != "" {
        var packet := app.cases.packets[op.packet];
        DeliverCorrectionDraft(packet.tenant, packet.caseRun, op.action, answers);
      }
    }

    /** Read-only mode: a draft of what to reply instead, where there is one. */
    method DeliverCorrectionDraft(tenant: string, caseRun: Id, action: string, answers: Answers)
      requires OnePerChannel(app.bindings)
      modifies this`drafts
      ensures State() ==
        if HasDraft(action) then DraftCorrection(old(State()), tenant, caseRun, action, answers) else old(State())
    {
      hide OnePerChannel, HasWhatsApp;
      var provider := app.WhatsAppBindingByTenant(tenant);
      if provider.None? || app.bindings[provider.value].mode != ReadOnly || !HasDraft(action) {
        return;
      }
      var outcome := SendDrafts(tenant, caseRun, provider.value, CorrectedReply(action), answers);
    }

    method PersistApproval(op: L.Op, ghost before: L.Ledger, audit: Id, out: Id, answers: Answers)
      requires Approves(before, op) && audit !in audits && AuditsKeyed(State()) && RowsKeyed(State())
      requires op.packet in app.cases.packets && app.cases.packets[op.packet] == before.docket.packets[op.packet]
      requires OnePerChannel(app.bindings)
      modifies this
      ensures State() == ApproveAndSend(old(State()), AuditOf(before, op), audit, out, answers)
      ensures app.State() == old(app.State())
    {
      hide OnePerChannel, SendApproved, OutcomeOf;
      var packet := app.cases.packets[op.packet];
      CreateAuditEvent(audit, Audit(packet.tenant, packet.caseRun, packet.point, op.packet, op.now));
      var outcome := SendApprovedCustomerReply(packet.tenant, packet.caseRun, out, answers);
    }
  }
}
