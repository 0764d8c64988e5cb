/** Replies to customers: persistApproval and SendApprovedCustomerReply of internal/app/app.go over the
 *  audit and outbound tables of internal/store/memory/store.go, on top of the correction loop.
 */
module CustomerOutbound {
  import opened Bindings
  import opened Cases
  import opened Conditions
  import opened Learning
  import L = CorrectionLoop

  /** The texts a draft can have, told apart by what varies in them. */
  datatype Body = QuoteReply(customer: string) | PlainReply(hasText: bool) | CorrectedReply(action: string)

  /** An approval_received audit event. */
  datatype Audit = Audit(tenant: string, caseRun: Id, point: Id, packet: Id, at: int)

  datatype AuditKey = AuditKey(tenant: string, caseRun: Id, point: Id)

  datatype SendStatus = Queued | Sent

  datatype Outbound = Outbound(tenant: string, caseRun: Id, recipient: string, body: Body, audit: Id,
    status: SendStatus)

  datatype OutKey = OutKey(tenant: string, caseRun: Id, body: Body)

  datatype DraftPart = Instruction | Reply(body: Body)

  /** A message of the read-only mode, addressed as the binding says. */
  datatype Draft = Draft(tenant: string, caseRun: Id, recipient: string, part: DraftPart)

  /** `sends` lists the full-control messages to customers that the adapter accepted, `drafts` the
   *  read-only messages, oldest first.
   */
  datatype Desk = Desk(
    ledger: L.Ledger,
    audits: map<Id, Audit>,
    auditByKey: map<AuditKey, Id>,
    outbound: map<Id, Outbound>,
    outByKey: map<OutKey, Id>,
    sends: seq<Outbound>,
    drafts: seq<Draft>)

  const EMPTY := Desk(L.EMPTY, map[], map[], map[], map[], [], [])

  /** What the adapter would answer to the first and to a second message, false also when there is none. */
  datatype Answers = Answers(first: bool, second: bool)

  datatype Op =
    | Loop(op: L.Op, audit: Id, out: Id, answers: Answers)
    | Retry(tenant: string, caseRun: Id, out: Id, answers: Answers)

  // ----- What is sent

  function StringValue(payload: Payload, field: string, fallback: string): string {
    if field in payload && payload[field].printed != "" then payload[field].printed else fallback
  }

  function DraftBody(run: CaseRun): Body {
    if run.workflow == "quote_drafting" then QuoteReply(StringValue(run.payload, "customer_identifier", "there"))
    else PlainReply(StringValue(run.payload, "body_text", "") != "")
  }

  function CustomerOf(run: CaseRun): string {
    StringValue(run.payload, "customer_identifier", "")
  }

  function Message(run: CaseRun, id: Id, audit: Id, status: SendStatus): Outbound {
    Outbound(run.tenant, id, NormalizeJid(CustomerOf(run)), DraftBody(run), audit, status)
  }

  // ----- The steps

  function KeyOfAudit(a: Audit): AuditKey {
    AuditKey(a.tenant, a.caseRun, a.point)
  }

  function KeyOfOut(o: Outbound): OutKey {
    OutKey(o.tenant, o.caseRun, o.body)
  }

  /** The first approval of a decision point is audited, later ones are not. */
  function RecordApproval(d: Desk, id: Id, a: Audit): Desk {
    if KeyOfAudit(a) in d.auditByKey then d
    else d.(audits := d.audits[id := a], auditByKey := d.auditByKey[KeyOfAudit(a) := id])
  }

  /** A row is created once per key; after that it can only turn from queued to sent. */
  function Upsert(d: Desk, id: Id, o: Outbound): Desk {
    if KeyOfOut(o) in d.outByKey then
      var known := d.outByKey[KeyOfOut(o)];
      if known in d.outbound && d.outbound[known].status != Sent && o.status == Sent
      then d.(outbound := d.outbound[known := o])
      else d
    else d.(outbound := d.outbound[id := o], outByKey := d.outByKey[KeyOfOut(o) := id])
  }

  predicate IsSent(d: Desk, k: OutKey) {
    k in d.outByKey && d.outByKey[k] in d.outbound && d.outbound[d.outByKey[k]].status == Sent
  }

  datatype Outcome =
    Delivered | AlreadySent | Failed | DraftDelivered | DraftFailed | ApprovalRequired | NoRecipient | Unknown

  ghost function BindingOf(d: Desk, tenant: string): Binding
    requires HasWhatsApp(d.ledger.bindings, tenant)
  {
    d.ledger.bindings[TheWhatsApp(d.ledger.bindings, tenant)]
  }

  /** How a send ends, in the order the code finds out. Read-only mode does not ask for an approval. */
  ghost function OutcomeOf(d: Desk, tenant: string, id: Id, answers: Answers): Outcome {
    if !HasRun(d.ledger.docket, tenant, id) || !HasWhatsApp(d.ledger.bindings, tenant) then Unknown
    else if BindingOf(d, tenant).mode == ReadOnly then
      if answers.first && answers.second then DraftDelivered else DraftFailed
    else
      var run := d.ledger.docket.runs[id];
      if AuditKey(tenant, id, run.point) !in d.auditByKey then ApprovalRequired
      else if CustomerOf(run) == "" then NoRecipient
      else if IsSent(d, OutKey(tenant, id, DraftBody(run))) then AlreadySent
      else if answers.first then Delivered
      else Failed
  }

  ghost function DraftAddress(d: Desk, tenant: string): string
    requires HasWhatsApp(d.ledger.bindings, tenant)
  {
    DraftRecipient(BindingOf(d, tenant), TheWhatsApp(d.ledger.bindings, tenant).number)
  }

  /** The read-only messages the adapter accepts: an instruction, then the draft itself. */
  ghost function DraftsTo(d: Desk, tenant: string, id: Id, answers: Answers): seq<Draft>
    requires HasRun(d.ledger.docket, tenant, id) && HasWhatsApp(d.ledger.bindings, tenant)
  {
    DraftsWith(d, tenant, id, DraftBody(d.ledger.docket.runs[id]), answers)
  }

  ghost function DraftsWith(d: Desk, tenant: string, id: Id, body: Body, answers: Answers): seq<Draft>
    requires HasWhatsApp(d.ledger.bindings, tenant)
  {
    var recipient := DraftAddress(d, tenant);
    if !answers.first then []
    else if !answers.second then [Draft(tenant, id, recipient, Instruction)]
    else [Draft(tenant, id, recipient, Instruction), Draft(tenant, id, recipient, Reply(body))]
  }

  /** Send the draft of a case to its customer or to the operator, if everything allows it. */
  ghost function SendApproved(d: Desk, tenant: string, id: Id, out: Id, answers: Answers): Desk {
    match OutcomeOf(d, tenant, id, answers)
    case DraftDelivered => d.(drafts := d.drafts + DraftsTo(d, tenant, id, answers))
    case DraftFailed => d.(drafts := d.drafts + DraftsTo(d, tenant, id, answers))
    case Failed => Upsert(d, out, PendingMessage(d, tenant, id))
    case Delivered => Accept(Upsert(d, out, PendingMessage(d, tenant, id)), out, PendingMessage(d, tenant, id))
    case _ => d
  }

  /** The adapter has taken the message: log it and mark its row. */
  function Accept(d: Desk, out: Id, message: Outbound): Desk {
    var sent := message.(status := Sent);
    Upsert(d.(sends := d.sends + [sent]), out, sent)
  }

  function PendingMessage(d: Desk, tenant: string, id: Id): Outbound
    requires HasRun(d.ledger.docket, tenant, id)
    requires AuditKey(tenant, id, d.ledger.docket.runs[id].point) in d.auditByKey
  {
    var run := d.ledger.docket.runs[id];
    Message(run, id, d.auditByKey[AuditKey(tenant, id, run.point)], Queued)
  }

  /** The reply is an approval that has not been seen before. */
  predicate Approves(l: L.Ledger, op: L.Op) {
    op.Reply? && op.button == Approve && L.Recorded(l, op)
  }

  function AuditOf(l: L.Ledger, op: L.Op): Audit
    requires Approves(l, op)
  {
    var packet := l.docket.packets[op.packet];
    Audit(packet.tenant, packet.caseRun, packet.point, op.packet, op.now)
  }

  ghost function ApproveAndSend(d: Desk, a: Audit, audit: Id, out: Id, answers: Answers): Desk {
    SendApproved(RecordApproval(d, audit, a), a.tenant, a.caseRun, out, answers)
  }

  /** There is a reply to hand to the customer after a correction to this action. */
  predicate HasDraft(action: string) {
    action in ["hold_and_request_more_info", "send_quote", "use_corporate_template"]
  }

  /** The reply files a new correction that parses to an action with a draft. */
  predicate Corrects(l: L.Ledger, op: L.Op) {
    && op.Reply? && op.button != Approve && L.Recorded(l, op)
    && Parsed(L.CorrectionOf(l.docket, op)) && HasDraft(op.action)
  }

  /** After a correction a read-only tenant's operator is handed a draft for the customer. */
  ghost function DraftCorrection(d: Desk, tenant: string, id: Id, action: string, answers: Answers): Desk {
    if HasWhatsApp(d.ledger.bindings, tenant) && BindingOf(d, tenant).mode == ReadOnly
    then d.(drafts := d.drafts + DraftsWith(d, tenant, id, CorrectedReply(action), answers))
    else d
  }

  /** What an operator's reply, taken by the correction loop, has sent. */
  ghost function Answer(next: Desk, l: L.Ledger, op: L.Op, audit: Id, out: Id, answers: Answers): Desk {
    if Approves(l, op) then ApproveAndSend(next, AuditOf(l, op), audit, out, answers)
    else if Corrects(l, op) then
      DraftCorrection(next, l.docket.packets[op.packet].tenant, l.docket.packets[op.packet].caseRun, op.action, answers)
    else next
  }

  ghost function Step(d: Desk, op: Op): Desk {
    match op
    case Loop(inner, audit, out, answers) =>
      Answer(d.(ledger := L.Step(d.ledger, inner)), d.ledger, inner, audit, out, answers)
    case Retry(tenant, id, out, answers) => SendApproved(d, tenant, id, out, answers)
  }

  ghost function Run(d: Desk, ops: seq<Op>): Desk
    decreases |ops|
  {
    if ops == [] then d else Run(Step(d, ops[0]), ops[1..])
  }

  ghost predicate Fresh(d: Desk, op: Op) {
    match op
    case Loop(inner, audit, out, _) => L.Fresh(d.ledger, inner) && audit !in d.audits && out !in d.outbound
    case Retry(_, _, out, _) => out !in d.outbound
  }

  ghost predicate FreshRun(d: Desk, ops: seq<Op>)
    decreases |ops|
  {
    ops == [] || (Fresh(d, ops[0]) && FreshRun(Step(d, ops[0]), ops[1..]))
  }

  // ----- What holds in every reachable state

  /** The audit stems from an approve reply, seen before its packet expired, to a packet of that case
   *  and decision point.
   */
  ghost predicate CameFromReply(l: L.Ledger, a: Audit) {
    && a.packet in l.docket.packets
    && l.docket.packets[a.packet] == ReviewPacket(a.tenant, a.caseRun, a.point, l.docket.packets[a.packet].expiresAt)
    && a.at <= l.docket.packets[a.packet].expiresAt
    && HasRun(l.docket, a.tenant, a.caseRun) && l.docket.runs[a.caseRun].point == a.point
    && exists raw :: SignalId(a.tenant, a.packet, Approve, raw) in l.learn.signals
  }

  ghost predicate AuditsKeyed(d: Desk) {
    && (forall i :: i in d.audits ==>
      KeyOfAudit(d.audits[i]) in d.auditByKey && d.auditByKey[KeyOfAudit(d.audits[i])] == i)
    && (forall k :: k in d.auditByKey ==> d.auditByKey[k] in d.audits && KeyOfAudit(d.audits[d.auditByKey[k]]) == k)
  }

  ghost predicate AuditsSound(d: Desk) {
    (forall i :: i in d.audits ==> CameFromReply(d.ledger, d.audits[i])) && AuditsKeyed(d)
  }

  /** The message is the draft of its case, to its customer, under an approval of its decision. */
  ghost predicate MessageSound(d: Desk, o: Outbound) {
    && HasRun(d.ledger.docket, o.tenant, o.caseRun)
    && o == Message(d.ledger.docket.runs[o.caseRun], o.caseRun, o.audit, o.status)
    && o.audit in d.audits
    && KeyOfAudit(d.audits[o.audit]) == AuditKey(o.tenant, o.caseRun, d.ledger.docket.runs[o.caseRun].point)
  }

  ghost predicate RowsKeyed(d: Desk) {
    && (forall i :: i in d.outbound ==>
      KeyOfOut(d.outbound[i]) in d.outByKey && d.outByKey[KeyOfOut(d.outbound[i])] == i)
    && (forall k :: k in d.outByKey ==> d.outByKey[k] in d.outbound && KeyOfOut(d.outbound[d.outByKey[k]]) == k)
  }

  ghost predicate RowsSound(d: Desk) {
    (forall i :: i in d.outbound ==> MessageSound(d, d.outbound[i])) && RowsKeyed(d)
  }

  /** The log of sends and the rows marked sent tell the same story. */
  ghost predicate SendsMatchRows(d: Desk) {
    && (forall i, j :: 0 <= i < j < |d.sends| ==> d.sends[i].caseRun != d.sends[j].caseRun)
    && (forall m :: m in d.sends ==>
      m.status == Sent && IsSent(d, KeyOfOut(m)) && d.outbound[d.outByKey[KeyOfOut(m)]] == m)
    && (forall i :: i in d.outbound && d.outbound[i].status == Sent ==> d.outbound[i] in d.sends)
  }

  ghost predicate DeskInv(d: Desk) {
    AuditsSound(d) && RowsSound(d) && SendsMatchRows(d)
  }

  ghost predicate Inv(d: Desk) {
    L.Inv(d.ledger) && DeskInv(d)
  }

  lemma MessageFrame(d: Desk, v: Desk, o: Outbound)
    requires MessageSound(d, o) && L.RunsKept(d.ledger.docket, v.ledger.docket)
    requires forall i :: i in d.audits ==> i in v.audits && v.audits[i] == d.audits[i]
    ensures MessageSound(v, o)
  {
    hide NormalizeJid;
    assert d.ledger.docket.runs[o.caseRun].(status := "") == v.ledger.docket.runs[o.caseRun].(status := "");
  }

  lemma SendsIgnoreRest(d: Desk, v: Desk)
    requires SendsMatchRows(d)
    requires v.outbound == d.outbound && v.outByKey == d.outByKey && v.sends == d.sends
    ensures SendsMatchRows(v)
  {
    forall m | m in v.sends
      ensures m.status == Sent && IsSent(v, KeyOfOut(m)) && v.outbound[v.outByKey[KeyOfOut(m)]] == m
    {
      assert IsSent(d, KeyOfOut(m));
    }
  }

  /** Rows and sends stay sound while cases and audits only grow. */
  lemma RowsFrame(d: Desk, v: Desk)
    requires RowsSound(d) && SendsMatchRows(d)
    requires v.outbound == d.outbound && v.outByKey == d.outByKey && v.sends == d.sends
    requires L.RunsKept(d.ledger.docket, v.ledger.docket)
    requires forall i :: i in d.audits ==> i in v.audits && v.audits[i] == d.audits[i]
    ensures RowsSound(v) && SendsMatchRows(v)
  {
    hide MessageSound, SendsMatchRows, L.RunsKept;
    SendsIgnoreRest(d, v);
    forall i | i in d.outbound ensures MessageSound(v, d.outbound[i]) {
      MessageFrame(d, v, d.outbound[i]);
    }
  }

  lemma LedgerKeepsAudit(l: L.Ledger, m: L.Ledger, a: Audit)
    requires CameFromReply(l, a) && L.Persists(l, m)
    ensures CameFromReply(m, a)
  {
    var raw :| SignalId(a.tenant, a.packet, Approve, raw) in l.learn.signals;
    assert SignalId(a.tenant, a.packet, Approve, raw) in m.learn.signals;
  }

  lemma LedgerKeepsDesk(d: Desk, l: L.Ledger)
    requires DeskInv(d) && L.Persists(d.ledger, l)
    ensures DeskInv(d.(ledger := l))
  {
    forall i | i in d.audits ensures CameFromReply(l, d.audits[i]) {
      LedgerKeepsAudit(d.ledger, l, d.audits[i]);
    }
    RowsFrame(d, d.(ledger := l));
  }

  lemma ApprovalKeepsAudits(d: Desk, id: Id, a: Audit)
    requires AuditsSound(d) && id !in d.audits && CameFromReply(d.ledger, a)
    ensures AuditsSound(RecordApproval(d, id, a))
  {
  }

  lemma ApprovalKeepsDesk(d: Desk, id: Id, a: Audit)
    requires DeskInv(d) && id !in d.audits && CameFromReply(d.ledger, a)
    ensures DeskInv(RecordApproval(d, id, a))
  {
    if KeyOfAudit(a) !in d.auditByKey {
      ApprovalKeepsAudits(d, id, a);
      RowsFrame(d, RecordApproval(d, id, a));
    }
  }

  lemma SoundIgnoresRows(d: Desk, v: Desk, o: Outbound)
    requires MessageSound(d, o) && v.ledger == d.ledger && v.audits == d.audits
    ensures MessageSound(v, o)
  {
  }

  lemma NewRowKeepsRows(d: Desk, id: Id, o: Outbound)
    requires RowsSound(d) && id !in d.outbound && MessageSound(d, o) && KeyOfOut(o) !in d.outByKey
    ensures RowsSound(Upsert(d, id, o))
  {
    hide MessageSound;
    var v := Upsert(d, id, o);
    forall i | i in v.outbound ensures MessageSound(v, v.outbound[i]) {
      SoundIgnoresRows(d, v, v.outbound[i]);
    }
  }

  lemma NewRowKeepsSends(d: Desk, id: Id, o: Outbound)
    requires SendsMatchRows(d) && id !in d.outbound && o.status == Queued && KeyOfOut(o) !in d.outByKey
    ensures SendsMatchRows(Upsert(d, id, o))
  {
    var v := Upsert(d, id, o);
    forall m | m in v.sends
      ensures m.status == Sent && IsSent(v, KeyOfOut(m)) && v.outbound[v.outByKey[KeyOfOut(m)]] == m
    {
      assert IsSent(d, KeyOfOut(m));
    }
  }

  lemma RowKeepsDesk(d: Desk, id: Id, o: Outbound)
    requires DeskInv(d) && id !in d.outbound && MessageSound(d, o) && o.status == Queued
    ensures DeskInv(Upsert(d, id, o)) && KeyOfOut(o) in Upsert(d, id, o).outByKey
    ensures IsSent(Upsert(d, id, o), KeyOfOut(o)) == IsSent(d, KeyOfOut(o))
  {
    if KeyOfOut(o) !in d.outByKey {
      NewRowKeepsRows(d, id, o);
      NewRowKeepsSends(d, id, o);
    }
  }

  /** A case whose row is not sent has no send: its messages all have the same key. */
  lemma UnsentHasNoSend(d: Desk, o: Outbound)
    requires DeskInv(d) && MessageSound(d, o) && !IsSent(d, KeyOfOut(o))
    ensures forall m :: m in d.sends ==> m.caseRun != o.caseRun
  {
    forall m | m in d.sends ensures m.caseRun != o.caseRun {
      assert MessageSound(d, d.outbound[d.outByKey[KeyOfOut(m)]]);
    }
  }

  lemma SentRowKeepsRows(d: Desk, id: Id, o: Outbound)
    requires RowsSound(d) && MessageSound(d, o) && KeyOfOut(o) in d.outByKey
    ensures RowsSound(Upsert(d, id, o))
  {
    hide MessageSound;
    var v := Upsert(d, id, o);
    forall i | i in v.outbound ensures MessageSound(v, v.outbound[i]) {
      SoundIgnoresRows(d, v, v.outbound[i]);
    }
  }

  /** Accepting a queued row and marking it sent. */
  lemma DeliveryKeepsDesk(d: Desk, id: Id, o: Outbound)
    requires DeskInv(d) && MessageSound(d, o) && o.status == Sent
    requires KeyOfOut(o) in d.outByKey && !IsSent(d, KeyOfOut(o))
    ensures DeskInv(Upsert(d.(sends := d.sends + [o]), id, o))
  {
    hide MessageSound, SendsMatchRows, CameFromReply;
    var u := d.(sends := d.sends + [o]);
    var v := Upsert(u, id, o);
    UnsentHasNoSend(d, o);
    SoundIgnoresRows(d, u, o);
    forall i | i in u.outbound ensures MessageSound(u, u.outbound[i]) {
      SoundIgnoresRows(d, u, u.outbound[i]);
    }
    SentRowKeepsRows(u, id, o);
    DeliveryMatches(d, v, o);
  }

  lemma DeliveryMatches(d: Desk, v: Desk, o: Outbound)
    requires SendsMatchRows(d) && o.status == Sent && (forall m :: m in d.sends ==> m.caseRun != o.caseRun)
    requires forall k :: k in d.outByKey ==> d.outByKey[k] in d.outbound && KeyOfOut(d.outbound[d.outByKey[k]]) == k
    requires KeyOfOut(o) in d.outByKey && v.outByKey == d.outByKey && v.sends == d.sends + [o]
    requires v.outbound == d.outbound[d.outByKey[KeyOfOut(o)] := o]
    ensures SendsMatchRows(v)
  {
    forall m | m in v.sends
      ensures m.status == Sent && IsSent(v, KeyOfOut(m)) && v.outbound[v.outByKey[KeyOfOut(m)]] == m
    {
      if m in d.sends {
        assert IsSent(d, KeyOfOut(m)) && KeyOfOut(m) != KeyOfOut(o);
      }
    }
  }

  lemma PendingIsSound(d: Desk, tenant: string, id: Id)
    requires HasRun(d.ledger.docket, tenant, id) && AuditsKeyed(d)
    requires AuditKey(tenant, id, d.ledger.docket.runs[id].point) in d.auditByKey
    ensures var o := PendingMessage(d, tenant, id);
      && o.tenant == tenant && o.caseRun == id && o.body == DraftBody(d.ledger.docket.runs[id]) && o.status == Queued
      && forall v: Desk :: v.ledger == d.ledger && v.audits == d.audits ==>
        MessageSound(v, o) && MessageSound(v, o.(status := Sent))
  {
  }

  lemma QueueKeepsDesk(d: Desk, tenant: string, id: Id, out: Id)
    requires DeskInv(d) && out !in d.outbound && HasRun(d.ledger.docket, tenant, id)
    requires AuditKey(tenant, id, d.ledger.docket.runs[id].point) in d.auditByKey
    ensures var o := PendingMessage(d, tenant, id);
      var queued := Upsert(d, out, o);
      && DeskInv(queued) && MessageSound(queued, o.(status := Sent)) && KeyOfOut(o) in queued.outByKey
      && KeyOfOut(o) == OutKey(tenant, id, DraftBody(d.ledger.docket.runs[id]))
      && IsSent(queued, KeyOfOut(o)) == IsSent(d, KeyOfOut(o))
  {
    hide MessageSound, Message, RowsSound, SendsMatchRows, IsSent;
    PendingIsSound(d, tenant, id);
    RowKeepsDesk(d, out, PendingMessage(d, tenant, id));
  }

  lemma SendKeepsDesk(d: Desk, tenant: string, id: Id, out: Id, answers: Answers)
    requires DeskInv(d) && out !in d.outbound
    ensures DeskInv(SendApproved(d, tenant, id, out, answers))
  {
    hide DeskInv, IsSent, MessageSound, Upsert, PendingMessage, HasWhatsApp, DraftsTo, DraftBody;
    var outcome := OutcomeOf(d, tenant, id, answers);
    if outcome == DraftDelivered || outcome == DraftFailed {
      DraftsKeepDesk(d, SendApproved(d, tenant, id, out, answers));
    } else if outcome == Failed || outcome == Delivered {
      QueueKeepsDesk(d, tenant, id, out);
      if outcome == Delivered {
        var o := PendingMessage(d, tenant, id);
        DeliveryKeepsDesk(Upsert(d, out, o), out, o.(status := Sent));
      }
    }
  }

  lemma DraftsKeepDesk(d: Desk, v: Desk)
    requires DeskInv(d) && v == d.(drafts := v.drafts)
    ensures DeskInv(v)
  {
    RowsFrame(d, v);
  }

  // ----- Whole runs

  lemma ApprovalCameFromReply(l: L.Ledger, op: L.Op)
    requires L.Inv(l) && L.Fresh(l, op) && Approves(l, op)
    ensures CameFromReply(L.Step(l, op), AuditOf(l, op))
  {
    hide LearnInv, RunsSound, SnapshotsSound, L.TenantsKnown, Merge;
    assert PacketSound(l.docket, op.packet);
    assert L.SignalOf(l.docket, op) in L.Step(l, op).learn.signals;
  }

  lemma UpsertTouchesRows(d: Desk, id: Id, o: Outbound)
    ensures var v := Upsert(d, id, o);
      v.ledger == d.ledger && v.audits == d.audits && v.auditByKey == d.auditByKey
  {
  }

  lemma SendTouchesRows(d: Desk, tenant: string, id: Id, out: Id, answers: Answers)
    ensures var v := SendApproved(d, tenant, id, out, answers);
      v.ledger == d.ledger && v.audits == d.audits && v.auditByKey == d.auditByKey
  {
    var outcome := OutcomeOf(d, tenant, id, answers);
    if outcome == Failed || outcome == Delivered {
      var o := PendingMessage(d, tenant, id);
      var queued, sent := Upsert(d, out, o), o.(status := Sent);
      UpsertTouchesRows(d, out, o);
      UpsertTouchesRows(queued.(sends := queued.sends + [sent]), out, sent);
    }
    hide OutcomeOf, DraftsTo, PendingMessage, Upsert;
  }

  lemma SendLeavesLedger(d: Desk, tenant: string, id: Id, out: Id, answers: Answers)
    ensures SendApproved(d, tenant, id, out, answers).ledger == d.ledger
  {
    hide SendApproved;
    SendTouchesRows(d, tenant, id, out, answers);
  }

  lemma ApproveAndSendKeepsDesk(d: Desk, a: Audit, audit: Id, out: Id, answers: Answers)
    requires DeskInv(d) && audit !in d.audits && out !in d.outbound && CameFromReply(d.ledger, a)
    ensures DeskInv(ApproveAndSend(d, a, audit, out, answers))
    ensures ApproveAndSend(d, a, audit, out, answers).ledger == d.ledger
  {
    var u := RecordApproval(d, audit, a);
    ApprovalKeepsDesk(d, audit, a);
    SendKeepsDesk(u, a.tenant, a.caseRun, out, answers);
    SendLeavesLedger(u, a.tenant, a.caseRun, out, answers);
  }

  lemma PacketsStay(l: L.Ledger, op: L.Op)
    requires L.Fresh(l, op)
    ensures forall p :: p in l.docket.packets ==>
      p in L.Step(l, op).docket.packets && L.Step(l, op).docket.packets[p] == l.docket.packets[p]
  {
    L.StepPersists(l, op);
  }

  /** The part of a loop step that belongs to the correction loop. */
  lemma LedgerStepKeepsInv(d: Desk, op: L.Op)
    requires Inv(d) && L.Fresh(d.ledger, op)
    ensures Inv(d.(ledger := L.Step(d.ledger, op)))
    ensures Approves(d.ledger, op) ==> CameFromReply(L.Step(d.ledger, op), AuditOf(d.ledger, op))
  {
    L.StepKeepsInv(d.ledger, op);
    L.StepPersists(d.ledger, op);
    LedgerKeepsDesk(d, L.Step(d.ledger, op));
    if Approves(d.ledger, op) {
      ApprovalCameFromReply(d.ledger, op);
    }
  }

  lemma LoopStepKeepsInv(d: Desk, op: Op)
    requires Inv(d) && Fresh(d, op) && op.Loop?
    ensures Inv(Step(d, op))
  {
    hide L.Step, L.Inv, L.Fresh, DeskInv, ApproveAndSend, DraftsWith, CameFromReply;
    var next := d.(ledger := L.Step(d.ledger, op.op));
    LedgerStepKeepsInv(d, op.op);
    if Approves(d.ledger, op.op) {
      ApproveAndSendKeepsDesk(next, AuditOf(d.ledger, op.op), op.audit, op.out, op.answers);
    } else {
      DraftsKeepDesk(next, Step(d, op));
    }
  }

  lemma StepKeepsInv(d: Desk, op: Op)
    requires Inv(d) && Fresh(d, op)
    ensures Inv(Step(d, op))
  {
    match op
    case Loop(_, _, _, _) => LoopStepKeepsInv(d, op);
    case Retry(tenant, id, out, answers) =>
      SendKeepsDesk(d, tenant, id, out, answers);
      SendLeavesLedger(d, tenant, id, out, answers);
  }

  lemma {:induction false} RunKeepsInv(d: Desk, ops: seq<Op>)
    requires Inv(d) && FreshRun(d, ops)
    ensures Inv(Run(d, ops))
    decreases |ops|
  {
    if ops != [] {
      StepKeepsInv(d, ops[0]);
      RunKeepsInv(Step(d, ops[0]), ops[1..]);
    }
  }

  lemma ReachableInv(ops: seq<Op>)
    requires FreshRun(EMPTY, ops)
    ensures Inv(Run(EMPTY, ops))
  {
    L.EmptyInv();
    RunKeepsInv(EMPTY, ops);
  }

  // ----- What it means

  function SendsOf(sends: seq<Outbound>, id: Id): nat {
    if sends == [] then 0 else SendsOf(sends[..|sends| - 1], id) + (if sends[|sends| - 1].caseRun == id then 1 else 0)
  }

  lemma {:induction false} SendsOfIsOne(sends: seq<Outbound>, id: Id)
    requires forall i, j :: 0 <= i < j < |sends| ==> sends[i].caseRun != sends[j].caseRun
    ensures SendsOf(sends, id) == if exists m :: m in sends && m.caseRun == id then 1 else 0
  {
    if sends != [] {
      var init, last := sends[..|sends| - 1], sends[|sends| - 1];
      SendsOfIsOne(init, id);
      assert sends == init + [last];
    }
  }

  /** In every run the customer of a case is written to at most once: exactly once if the row of the
   *  case is marked sent, else never.
   */
  lemma AtMostOneSend(ops: seq<Op>, id: Id)
    requires FreshRun(EMPTY, ops) && id in Run(EMPTY, ops).ledger.docket.runs
    ensures var d := Run(EMPTY, ops);
      var run := d.ledger.docket.runs[id];
      SendsOf(d.sends, id) == if IsSent(d, OutKey(run.tenant, id, DraftBody(run))) then 1 else 0
  {
    ReachableInv(ops);
    SendsFollowRow(Run(EMPTY, ops), id);
  }

  lemma SendsFollowRow(d: Desk, id: Id)
    requires DeskInv(d) && id in d.ledger.docket.runs
    ensures var run := d.ledger.docket.runs[id];
      SendsOf(d.sends, id) == if IsSent(d, OutKey(run.tenant, id, DraftBody(run))) then 1 else 0
  {
    var run := d.ledger.docket.runs[id];
    var k := OutKey(run.tenant, id, DraftBody(run));
    SendsOfIsOne(d.sends, id);
    if IsSent(d, k) {
      assert d.outbound[d.outByKey[k]] in d.sends && d.outbound[d.outByKey[k]].caseRun == id;
    }
    forall m | m in d.sends && m.caseRun == id ensures IsSent(d, k) {
      assert MessageSound(d, d.outbound[d.outByKey[KeyOfOut(m)]]);
    }
  }

  /** Every message a customer got is the draft of its case, to the customer of that case, under an
   *  approval audit that an approve reply on the unexpired packet of that decision point left behind.
   */
  lemma SendsAreApproved(ops: seq<Op>, m: Outbound)
    requires FreshRun(EMPTY, ops) && m in Run(EMPTY, ops).sends
    ensures var d := Run(EMPTY, ops);
      && HasRun(d.ledger.docket, m.tenant, m.caseRun)
      && m == Message(d.ledger.docket.runs[m.caseRun], m.caseRun, m.audit, Sent)
      && m.audit in d.audits
      && d.audits[m.audit].caseRun == m.caseRun && d.audits[m.audit].point == d.ledger.docket.runs[m.caseRun].point
      && CameFromReply(d.ledger, d.audits[m.audit])
  {
    ReachableInv(ops);
    var d := Run(EMPTY, ops);
    assert MessageSound(d, d.outbound[d.outByKey[KeyOfOut(m)]]);
  }

  ghost predicate SentKept(d: Desk, v: Desk) {
    forall k :: IsSent(d, k) ==>
      IsSent(v, k) && v.outByKey[k] == d.outByKey[k] && v.outbound[v.outByKey[k]] == d.outbound[d.outByKey[k]]
  }

  lemma UpsertKeepsSent(d: Desk, id: Id, o: Outbound)
    requires RowsKeyed(d) && (id !in d.outbound || KeyOfOut(o) in d.outByKey)
    ensures SentKept(d, Upsert(d, id, o)) && RowsKeyed(Upsert(d, id, o))
  {
  }

  lemma SendKeepsSent(d: Desk, tenant: string, id: Id, out: Id, answers: Answers)
    requires RowsKeyed(d) && out !in d.outbound
    ensures SentKept(d, SendApproved(d, tenant, id, out, answers))
  {
    hide RowsKeyed;
    var outcome := OutcomeOf(d, tenant, id, answers);
    if outcome == Failed || outcome == Delivered {
      var o := PendingMessage(d, tenant, id);
      var queued := Upsert(d, out, o);
      UpsertKeepsSent(d, out, o);
      if outcome == Delivered {
        var logged, sent := queued.(sends := queued.sends + [o.(status := Sent)]), o.(status := Sent);
        RowsIgnoreLog(queued, logged);
        UpsertKeepsSent(logged, out, sent);
      }
    }
  }

  lemma RowsIgnoreLog(d: Desk, v: Desk)
    requires RowsKeyed(d) && v.outbound == d.outbound && v.outByKey == d.outByKey
    ensures RowsKeyed(v)
  {
  }

  lemma ApproveAndSendKeepsSent(d: Desk, a: Audit, audit: Id, out: Id, answers: Answers)
    requires RowsKeyed(d) && out !in d.outbound
    ensures SentKept(d, ApproveAndSend(d, a, audit, out, answers))
  {
    RowsIgnoreLog(d, RecordApproval(d, audit, a));
    SendKeepsSent(RecordApproval(d, audit, a), a.tenant, a.caseRun, out, answers);
  }

  lemma SameRowsSent(d: Desk, v: Desk)
    requires v.outbound == d.outbound && v.outByKey == d.outByKey
    ensures SentKept(d, v)
  {
  }

  /** Only the rows matter for what is sent. */
  lemma RowsKeepSent(d: Desk, u: Desk, v: Desk)
    requires u.outbound == d.outbound && u.outByKey == d.outByKey && SentKept(u, v)
    ensures SentKept(d, v)
  {
  }

  lemma StepKeepsSent(d: Desk, op: Op)
    requires Inv(d) && Fresh(d, op)
    ensures SentKept(d, Step(d, op))
  {
    hide L.Step, L.Inv, L.Fresh, AuditsSound, MessageSound, SendsMatchRows, ApproveAndSend, DraftsWith, SentKept;
    match op
    case Loop(inner, audit, out, answers) =>
      var next := d.(ledger := L.Step(d.ledger, inner));
      RowsIgnoreLog(d, next);
      if Approves(d.ledger, inner) {
        ApproveAndSendKeepsSent(next, AuditOf(d.ledger, inner), audit, out, answers);
        RowsKeepSent(d, next, Step(d, op));
      } else {
        SameRowsSent(d, Step(d, op));
      }
    case Retry(tenant, id, out, answers) => SendKeepsSent(d, tenant, id, out, answers);
  }

  /** A row that has been marked sent stays as it is, whatever happens afterwards. */
  lemma {:induction false} SentStays(d: Desk, ops: seq<Op>)
    requires Inv(d) && FreshRun(d, ops)
    ensures SentKept(d, Run(d, ops))
    decreases |ops|
  {
    if ops != [] {
      StepKeepsInv(d, ops[0]);
      StepKeepsSent(d, ops[0]);
      SentStays(Step(d, ops[0]), ops[1..]);
    }
  }

  /** After an attempt that is neither refused nor fails, the row of the case is marked sent. */
  lemma SendMarksRow(d: Desk, tenant: string, id: Id, out: Id, answers: Answers)
    requires OutcomeOf(d, tenant, id, answers) == Delivered || OutcomeOf(d, tenant, id, answers) == AlreadySent
    requires RowsSound(d)
    ensures IsSent(SendApproved(d, tenant, id, out, answers), OutKey(tenant, id, DraftBody(d.ledger.docket.runs[id])))
  {
    hide NormalizeJid, HasWhatsApp, DraftsTo, MessageSound;
  }

  /** An approval of the decision of the case is on record. */
  ghost predicate IsApproved(d: Desk, tenant: string, id: Id)
    requires id in d.ledger.docket.runs
  {
    var key := AuditKey(tenant, id, d.ledger.docket.runs[id].point);
    exists a :: a in d.audits && KeyOfAudit(d.audits[a]) == key
  }

  /** Once a case is approved and its tenant has full control, one attempt the adapter accepts is
   *  enough for exactly one message, however many attempts failed or succeeded before.
   */
  lemma RetryDelivers(d: Desk, tenant: string, id: Id, out: Id, answers: Answers)
    requires DeskInv(d) && out !in d.outbound && HasRun(d.ledger.docket, tenant, id) && answers.first
    requires HasWhatsApp(d.ledger.bindings, tenant) && BindingOf(d, tenant).mode == FullControl
    requires CustomerOf(d.ledger.docket.runs[id]) != ""
    requires IsApproved(d, tenant, id)
    ensures SendsOf(Step(d, Retry(tenant, id, out, answers)).sends, id) == 1
  {
    hide HasWhatsApp, DraftsTo, MessageSound, SendsMatchRows, CameFromReply, DraftBody;
    SendKeepsDesk(d, tenant, id, out, answers);
    SendLeavesLedger(d, tenant, id, out, answers);
    SendMarksRow(d, tenant, id, out, answers);
    SendsFollowRow(SendApproved(d, tenant, id, out, answers), id);
  }

  /** The payload names its customer. */
  predicate NamesCustomer(payload: Payload) {
    "customer_identifier" in payload && payload["customer_identifier"].printed != ""
  }

  /** The message answers this case, to the address its payload names. */
  ghost predicate IsToCustomer(d: Desk, m: Outbound, tenant: string, id: Id)
    requires id in d.ledger.docket.runs
  {
    var run := d.ledger.docket.runs[id];
    && NamesCustomer(run.payload)
    && m.tenant == tenant && m.caseRun == id && m.status == Sent
    && m.recipient == NormalizeJid(run.payload["customer_identifier"].printed)
    && m.body == (if run.workflow == "quote_drafting" then QuoteReply(run.payload["customer_identifier"].printed)
                  else PlainReply("body_text" in run.payload && run.payload["body_text"].printed != ""))
  }

  /** Why an attempt may send nothing. */
  ghost predicate MaySend(d: Desk, tenant: string, id: Id, answers: Answers) {
    && HasRun(d.ledger.docket, tenant, id) && HasWhatsApp(d.ledger.bindings, tenant)
    && BindingOf(d, tenant).mode == FullControl
    && IsApproved(d, tenant, id) && NamesCustomer(d.ledger.docket.runs[id].payload) && answers.first
  }

  lemma SendAdds(d: Desk, tenant: string, id: Id, out: Id, answers: Answers)
    requires RowsSound(d)
    ensures var v := SendApproved(d, tenant, id, out, answers);
      if OutcomeOf(d, tenant, id, answers) == Delivered
      then |v.sends| == |d.sends| + 1 && v.sends[..|d.sends|] == d.sends && HasRun(d.ledger.docket, tenant, id)
        && IsToCustomer(d, v.sends[|d.sends|], tenant, id)
      else v.sends == d.sends
  {
    hide HasWhatsApp, NormalizeJid, DraftsWith, RowsSound;
  }

  lemma DeliveredExactly(d: Desk, tenant: string, id: Id, answers: Answers)
    requires DeskInv(d)
    ensures OutcomeOf(d, tenant, id, answers) == Delivered <==>
      MaySend(d, tenant, id, answers) && forall m :: m in d.sends ==> m.caseRun != id
  {
    hide HasWhatsApp, NormalizeJid, MessageSound;
    if HasRun(d.ledger.docket, tenant, id) {
      var key := AuditKey(tenant, id, d.ledger.docket.runs[id].point);
      assert IsApproved(d, tenant, id) <==> key in d.auditByKey;
      SentIsLogged(d, id);
    }
  }

  lemma SentIsLogged(d: Desk, id: Id)
    requires DeskInv(d) && id in d.ledger.docket.runs
    ensures var run := d.ledger.docket.runs[id];
      IsSent(d, OutKey(run.tenant, id, DraftBody(run))) <==> exists m :: m in d.sends && m.caseRun == id
  {
    SendsFollowRow(d, id);
    SendsOfIsOne(d.sends, id);
  }

  /** In full control an attempt writes to the customer exactly when the case is approved, names a customer and has
   *  not been answered, and the adapter accepts: one message, to that customer. Else nobody is written to.
   */
  lemma RetryExactly(d: Desk, tenant: string, id: Id, out: Id, answers: Answers)
    requires DeskInv(d)
    ensures var v := Step(d, Retry(tenant, id, out, answers));
      if MaySend(d, tenant, id, answers) && forall m :: m in d.sends ==> m.caseRun != id
      then |v.sends| == |d.sends| + 1 && v.sends[..|d.sends|] == d.sends
        && IsToCustomer(d, v.sends[|d.sends|], tenant, id)
      else v.sends == d.sends
  {
    hide DeskInv, SendApproved, OutcomeOf, MaySend, IsToCustomer;
    DeliveredExactly(d, tenant, id, answers);
    assert RowsSound(d) by {
      RowsOf(d);
    }
    SendAdds(d, tenant, id, out, answers);
  }

  /** What each outcome says of the case, in the order in which the code finds out. */
  lemma OutcomesMean(d: Desk, tenant: string, id: Id, answers: Answers)
    requires DeskInv(d)
    ensures OutcomeOf(d, tenant, id, answers) == Unknown <==>
      !HasRun(d.ledger.docket, tenant, id) || !HasWhatsApp(d.ledger.bindings, tenant)
    ensures HasRun(d.ledger.docket, tenant, id) && HasWhatsApp(d.ledger.bindings, tenant) ==>
      var outcome, payload := OutcomeOf(d, tenant, id, answers), d.ledger.docket.runs[id].payload;
      var sent := exists m :: m in d.sends && m.caseRun == id;
      if BindingOf(d, tenant).mode == ReadOnly then
        outcome == if answers.first && answers.second then DraftDelivered else DraftFailed
      else if !IsApproved(d, tenant, id) then outcome == ApprovalRequired
      else if !NamesCustomer(payload) then outcome == NoRecipient
      else if sent then outcome == AlreadySent
      else outcome == if answers.first then Delivered else Failed
  {
    hide HasWhatsApp, NormalizeJid, MessageSound;
    if HasRun(d.ledger.docket, tenant, id) {
      assert IsApproved(d, tenant, id) <==> AuditKey(tenant, id, d.ledger.docket.runs[id].point) in d.auditByKey;
      SentIsLogged(d, id);
    }
  }

  /** The text of a draft: a quote addresses its customer, if it names one; any other reply tells whether there was
   *  something to read.
   */
  lemma DraftBodyMeans(run: CaseRun)
    ensures run.workflow == "quote_drafting" && NamesCustomer(run.payload) ==>
      DraftBody(run) == QuoteReply(run.payload["customer_identifier"].printed)
    ensures run.workflow == "quote_drafting" && !NamesCustomer(run.payload) ==> DraftBody(run) == QuoteReply("there")
    ensures run.workflow != "quote_drafting" ==>
      DraftBody(run) == PlainReply("body_text" in run.payload && run.payload["body_text"].printed != "")
  {
  }

  /** Approvals on record stay, each the first of its decision. */
  ghost predicate ApprovalsKept(d: Desk, v: Desk) {
    && (forall i :: i in d.audits ==> i in v.audits && v.audits[i] == d.audits[i])
    && (forall k :: k in d.auditByKey ==> k in v.auditByKey && v.auditByKey[k] == d.auditByKey[k])
  }

  lemma SendLeavesApprovals(d: Desk, tenant: string, id: Id, out: Id, answers: Answers)
    ensures var v := SendApproved(d, tenant, id, out, answers); v.audits == d.audits && v.auditByKey == d.auditByKey
  {
    hide SendApproved;
    SendTouchesRows(d, tenant, id, out, answers);
  }

  lemma RecordKeepsApprovals(d: Desk, v: Desk, id: Id, a: Audit)
    requires id !in d.audits && v.audits == d.audits && v.auditByKey == d.auditByKey
    ensures ApprovalsKept(d, RecordApproval(v, id, a))
  {
  }

  lemma StepKeepsApprovals(d: Desk, op: Op)
    requires Fresh(d, op)
    ensures ApprovalsKept(d, Step(d, op))
  {
    hide L.Step, L.Fresh, SendApproved, DraftsWith, RecordApproval;
    match op
    case Loop(inner, audit, out, answers) =>
      var next := d.(ledger := L.Step(d.ledger, inner));
      if Approves(d.ledger, inner) {
        var a := AuditOf(d.ledger, inner);
        RecordKeepsApprovals(d, next, audit, a);
        SendLeavesApprovals(RecordApproval(next, audit, a), a.tenant, a.caseRun, out, answers);
      }
    case Retry(tenant, id, out, answers) => SendLeavesApprovals(d, tenant, id, out, answers);
  }

  /** The first approval of a decision is the one on record, whatever replies follow. */
  lemma {:induction false} FirstApprovalStays(d: Desk, ops: seq<Op>)
    requires FreshRun(d, ops)
    ensures ApprovalsKept(d, Run(d, ops))
    decreases |ops|
  {
    if ops != [] {
      StepKeepsApprovals(d, ops[0]);
      hide Step, Fresh;
      FirstApprovalStays(Step(d, ops[0]), ops[1..]);
    }
  }

  lemma RowsOf(d: Desk)
    requires DeskInv(d)
    ensures RowsSound(d)
  {
  }

  /** Every message so far answers a case, to the customer its payload names. */
  ghost predicate SendsNameCustomers(d: Desk) {
    forall m :: m in d.sends ==>
      HasRun(d.ledger.docket, m.tenant, m.caseRun) && IsToCustomer(d, m, m.tenant, m.caseRun)
  }

  lemma CustomersStay(d: Desk, v: Desk)
    requires SendsNameCustomers(d) && L.RunsKept(d.ledger.docket, v.ledger.docket) && v.sends == d.sends
    ensures SendsNameCustomers(v)
  {
    hide NormalizeJid;
    forall m | m in v.sends
      ensures HasRun(v.ledger.docket, m.tenant, m.caseRun) && IsToCustomer(v, m, m.tenant, m.caseRun)
    {
      assert v.ledger.docket.runs[m.caseRun].(status := "") == d.ledger.docket.runs[m.caseRun].(status := "");
    }
  }

  lemma ToCustomerOf(d: Desk, v: Desk, m: Outbound)
    requires v.ledger == d.ledger && HasRun(d.ledger.docket, m.tenant, m.caseRun)
    ensures IsToCustomer(v, m, m.tenant, m.caseRun) == IsToCustomer(d, m, m.tenant, m.caseRun)
  {
  }

  lemma OneMoreToCustomer(d: Desk, v: Desk)
    requires SendsNameCustomers(d) && v.ledger == d.ledger && |v.sends| == |d.sends| + 1
    requires v.sends[..|d.sends|] == d.sends
    requires var m := v.sends[|d.sends|];
      HasRun(d.ledger.docket, m.tenant, m.caseRun) && IsToCustomer(d, m, m.tenant, m.caseRun)
    ensures SendsNameCustomers(v)
  {
    hide IsToCustomer;
    forall m | m in v.sends
      ensures HasRun(v.ledger.docket, m.tenant, m.caseRun) && IsToCustomer(v, m, m.tenant, m.caseRun)
    {
      assert m in v.sends[..|d.sends|] || m == v.sends[|d.sends|];
      ToCustomerOf(d, v, m);
    }
  }

  lemma SendKeepsCustomers(d: Desk, tenant: string, id: Id, out: Id, answers: Answers)
    requires SendsNameCustomers(d) && RowsSound(d)
    ensures SendsNameCustomers(SendApproved(d, tenant, id, out, answers))
  {
    hide SendApproved, RowsSound, SendsNameCustomers, NormalizeJid, L.RunsKept;
    var v := SendApproved(d, tenant, id, out, answers);
    SendAdds(d, tenant, id, out, answers);
    SendLeavesLedger(d, tenant, id, out, answers);
    if OutcomeOf(d, tenant, id, answers) == Delivered {
      hide OutcomeOf;
      OneMoreToCustomer(d, v);
    } else {
      hide OutcomeOf;
      SameRuns(d.ledger.docket);
      CustomersStay(d, v);
    }
  }

  lemma SameRuns(d: Docket)
    ensures L.RunsKept(d, d)
  {
  }

  lemma StepKeepsCustomers(d: Desk, op: Op)
    requires Inv(d) && Fresh(d, op) && SendsNameCustomers(d)
    ensures SendsNameCustomers(Step(d, op))
  {
    hide SendsNameCustomers, L.Step, L.Inv, L.Fresh, SendApproved, DraftsWith, AuditsSound, SendsMatchRows;
    match op
    case Loop(inner, audit, out, answers) =>
      var next := d.(ledger := L.Step(d.ledger, inner));
      LedgerStepKeepsInv(d, inner);
      L.StepPersists(d.ledger, inner);
      CustomersStay(d, next);
      if Approves(d.ledger, inner) {
        var a := AuditOf(d.ledger, inner);
        ApprovalKeepsDesk(next, audit, a);
        CustomersStay(next, RecordApproval(next, audit, a));
        SendKeepsCustomers(RecordApproval(next, audit, a), a.tenant, a.caseRun, out, answers);
      } else {
        CustomersStay(next, Step(d, op));
      }
    case Retry(tenant, id, out, answers) => SendKeepsCustomers(d, tenant, id, out, answers);
  }

  lemma {:induction false} RunKeepsCustomers(d: Desk, ops: seq<Op>)
    requires Inv(d) && FreshRun(d, ops) && SendsNameCustomers(d)
    ensures SendsNameCustomers(Run(d, ops))
    decreases |ops|
  {
    if ops != [] {
      hide Step, Inv, Fresh, SendsNameCustomers;
      StepKeepsInv(d, ops[0]);
      StepKeepsCustomers(d, ops[0]);
      RunKeepsCustomers(Step(d, ops[0]), ops[1..]);
    }
  }

  lemma StepKeepsCases(d: Desk, op: Op)
    requires Fresh(d, op)
    ensures L.RunsKept(d.ledger.docket, Step(d, op).ledger.docket)
  {
    hide L.Step, L.RunsKept, SendApproved, DraftsWith, L.Fresh;
    SameRuns(d.ledger.docket);
    match op
    case Loop(inner, audit, out, answers) =>
      L.StepPersists(d.ledger, inner);
      if Approves(d.ledger, inner) {
        var a := AuditOf(d.ledger, inner);
        SendLeavesLedger(RecordApproval(d.(ledger := L.Step(d.ledger, inner)), audit, a), a.tenant, a.caseRun, out,
          answers);
      }
    case Retry(tenant, id, out, answers) => SendLeavesLedger(d, tenant, id, out, answers);
  }

  lemma {:induction false} RunKeepsCases(d: Desk, ops: seq<Op>)
    requires FreshRun(d, ops)
    ensures L.RunsKept(d.ledger.docket, Run(d, ops).ledger.docket)
    decreases |ops|
  {
    SameRuns(d.ledger.docket);
    if ops != [] {
      StepKeepsCases(d, ops[0]);
      hide Step, Fresh;
      RunKeepsCases(Step(d, ops[0]), ops[1..]);
    }
  }

  /** After any run every message to a customer went to the address in its case's payload, which there is. */
  lemma SendsGoToTheCustomer(ops: seq<Op>, m: Outbound)
    requires FreshRun(EMPTY, ops) && m in Run(EMPTY, ops).sends
    ensures var d := Run(EMPTY, ops);
      && m.caseRun in d.ledger.docket.runs
      && var payload := d.ledger.docket.runs[m.caseRun].payload;
        "customer_identifier" in payload && payload["customer_identifier"].printed != ""
        && m.recipient == NormalizeJid(payload["customer_identifier"].printed)
  {
    L.EmptyInv();
    hide L.Inv;
    RunKeepsCustomers(EMPTY, ops);
    hide Run, FreshRun, NormalizeJid;
  }

  // ----- What a reply sets off

  /** An approval that has an effect is answered at once, in full control with an accepting adapter: the customer of
   *  the case has then been written to exactly once.
   */
  lemma ApprovalIsSent(d: Desk, op: Op)
    requires Inv(d) && Fresh(d, op) && op.Loop? && op.op.Reply? && op.op.button == Approve
    requires L.Recorded(d.ledger, op.op) && op.answers.first
    requires var p := d.ledger.docket.packets[op.op.packet];
      && HasWhatsApp(d.ledger.bindings, p.tenant) && BindingOf(d, p.tenant).mode == FullControl
      && NamesCustomer(d.ledger.docket.runs[p.caseRun].payload)
    ensures SendsOf(Step(d, op).sends, d.ledger.docket.packets[op.op.packet].caseRun) == 1
  {
    hide L.Inv, L.Fresh, DeskInv, SendApproved, SendsOf, HasWhatsApp, NormalizeJid;
    var next := d.(ledger := L.Step(d.ledger, op.op));
    LedgerStepKeepsInv(d, op.op);
    ReplyLeavesCase(d.ledger, op.op);
    hide L.Step, L.Recorded, ApproveAndSend;
    AnsweredAtOnce(next, AuditOf(d.ledger, op.op), op.audit, op.out, op.answers);
  }

  lemma AnsweredAtOnce(d: Desk, a: Audit, audit: Id, out: Id, answers: Answers)
    requires DeskInv(d) && audit !in d.audits && out !in d.outbound && CameFromReply(d.ledger, a) && answers.first
    requires HasWhatsApp(d.ledger.bindings, a.tenant) && BindingOf(d, a.tenant).mode == FullControl
    requires CustomerOf(d.ledger.docket.runs[a.caseRun]) != ""
    ensures SendsOf(ApproveAndSend(d, a, audit, out, answers).sends, a.caseRun) == 1
  {
    ApprovalKeepsDesk(d, audit, a);
    RecordedIsApproved(d, audit, a);
    hide DeskInv, SendApproved, RecordApproval, IsApproved, HasWhatsApp, SendsOf, NormalizeJid;
    RetryDelivers(RecordApproval(d, audit, a), a.tenant, a.caseRun, out, answers);
  }

  lemma ReplyLeavesCase(l: L.Ledger, op: L.Op)
    requires op.Reply? && L.Recorded(l, op)
    ensures var p, v := l.docket.packets[op.packet], L.Step(l, op);
      && v.bindings == l.bindings
      && p.caseRun in v.docket.runs && p.caseRun in l.docket.runs
      && v.docket.runs[p.caseRun].(status := "") == l.docket.runs[p.caseRun].(status := "")
      && l.docket.runs[p.caseRun].tenant == p.tenant
  {
    hide L.ReplyLearn;
  }

  lemma RecordedIsApproved(d: Desk, id: Id, a: Audit)
    requires AuditsKeyed(d) && HasRun(d.ledger.docket, a.tenant, a.caseRun)
    requires d.ledger.docket.runs[a.caseRun].point == a.point
    ensures var u := RecordApproval(d, id, a);
      && u.ledger == d.ledger && u.outbound == d.outbound && IsApproved(u, a.tenant, a.caseRun)
  {
    if KeyOfAudit(a) in d.auditByKey {
      assert KeyOfAudit(d.audits[d.auditByKey[KeyOfAudit(a)]]) == KeyOfAudit(a);
    } else {
      assert KeyOfAudit(RecordApproval(d, id, a).audits[id]) == KeyOfAudit(a);
    }
  }

  /** The actions after whose correction there is something to hand on. */
  predicate Answerable(action: string) {
    action == "hold_and_request_more_info" || action == "send_quote" || action == "use_corporate_template"
  }

  /** A correction writes to no customer. It is answered by a draft exactly when it has an effect, parses to an action
   *  with a reply, and its tenant is read-only: an instruction, then the reply, while the adapter accepts.
   */
  lemma CorrectionDraftsExactly(d: Desk, op: Op)
    requires Inv(d) && op.Loop? && op.op.Reply? && op.op.button != Approve
    ensures Step(d, op).sends == d.sends
    ensures L.Recorded(d.ledger, op.op) && op.op.conditions != [] && Answerable(op.op.action) ==>
      var p := d.ledger.docket.packets[op.op.packet];
      HasWhatsApp(d.ledger.bindings, p.tenant) && BindingOf(d, p.tenant).mode == ReadOnly ==>
        var to := DraftAddress(d, p.tenant);
        Step(d, op).drafts == d.drafts
          + (if op.answers.first then [Draft(p.tenant, p.caseRun, to, Instruction)] else [])
          + (if op.answers.first && op.answers.second
             then [Draft(p.tenant, p.caseRun, to, Reply(CorrectedReply(op.op.action)))] else [])
    ensures !(L.Recorded(d.ledger, op.op) && op.op.conditions != [] && Answerable(op.op.action)
      && HasWhatsApp(d.ledger.bindings, d.ledger.docket.packets[op.op.packet].tenant)
      && BindingOf(d, d.ledger.docket.packets[op.op.packet].tenant).mode == ReadOnly)
      ==> Step(d, op).drafts == d.drafts
  {
    hide L.Inv, DeskInv, HasWhatsApp, NormalizeJid, DraftRecipient, L.ReplyLearn;
    if L.Recorded(d.ledger, op.op) {
      ReplyLeavesCase(d.ledger, op.op);
      hide L.Step, L.Recorded;
    }
  }

  /** In read-only mode an attempt writes to no customer; it hands the operator the draft of the case. */
  lemma RetryDraftsExactly(d: Desk, tenant: string, id: Id, out: Id, answers: Answers)
    requires HasRun(d.ledger.docket, tenant, id) && HasWhatsApp(d.ledger.bindings, tenant)
    requires BindingOf(d, tenant).mode == ReadOnly
    ensures var v, to := Step(d, Retry(tenant, id, out, answers)), DraftAddress(d, tenant);
      v == d.(drafts := d.drafts
        + (if answers.first then [Draft(tenant, id, to, Instruction)] else [])
        + (if answers.first && answers.second
           then [Draft(tenant, id, to, Reply(DraftBody(d.ledger.docket.runs[id])))] else []))
  {
    hide HasWhatsApp, NormalizeJid, DraftRecipient, DraftBody;
  }

  // ----- Whom a tenant writes to

  /** A message of the tenant has gone to the address, in either mode. */
  ghost predicate WritesTo(d: Desk, t: string, a: string) {
    (exists m :: m in d.sends && m.tenant == t && m.recipient == a)
    || (exists m :: m in d.drafts && m.tenant == t && m.recipient == a)
  }

  /** The send is about to reach the address. */
  ghost predicate Reaches(d: Desk, tenant: string, id: Id, answers: Answers, a: string) {
    match OutcomeOf(d, tenant, id, answers)
    case DraftDelivered => DraftAddress(d, tenant) == a
    case DraftFailed => answers.first && DraftAddress(d, tenant) == a
    case Delivered => NormalizeJid(CustomerOf(d.ledger.docket.runs[id])) == a
    case _ => false
  }

  lemma AppendedReach<T(!new)>(s: seq<T>, x: T, p: T -> bool)
    ensures (exists m :: m in s + [x] && p(m)) <==> (exists m :: m in s && p(m)) || p(x)
  {
    assert x in s + [x];
  }

  /** A send adds exactly this address to those the tenant has written to: a read-only draft goes to
   *  the address its binding names, a full-control message to the customer.
   */
  lemma SendReachesExactly(d: Desk, tenant: string, id: Id, out: Id, answers: Answers, t: string, a: string)
    ensures WritesTo(SendApproved(d, tenant, id, out, answers), t, a) <==>
      WritesTo(d, t, a) || (tenant == t && Reaches(d, tenant, id, answers, a))
  {
    hide HasWhatsApp, NormalizeJid, DraftBody, DraftsWith, DraftAddress;
    var outcome := OutcomeOf(d, tenant, id, answers);
    if outcome == Delivered {
      hide SendApproved;
      DeliveryReaches(d, tenant, id, out, answers, t, a);
    } else if outcome == DraftDelivered || outcome == DraftFailed {
      DraftsReach(d, tenant, id, DraftBody(d.ledger.docket.runs[id]), answers, t, a);
    }
  }

  lemma DeliveryReaches(d: Desk, tenant: string, id: Id, out: Id, answers: Answers, t: string, a: string)
    requires OutcomeOf(d, tenant, id, answers) == Delivered
    ensures WritesTo(SendApproved(d, tenant, id, out, answers), t, a) <==>
      WritesTo(d, t, a) || (tenant == t && NormalizeJid(CustomerOf(d.ledger.docket.runs[id])) == a)
  {
    hide HasWhatsApp, NormalizeJid, DraftBody, DraftsTo;
    var v, sent := SendApproved(d, tenant, id, out, answers), PendingMessage(d, tenant, id).(status := Sent);
    assert v.sends == d.sends + [sent] && v.drafts == d.drafts;
    AppendedReach(d.sends, sent, (m: Outbound) => m.tenant == t && m.recipient == a);
  }

  lemma DraftsReach(d: Desk, tenant: string, id: Id, body: Body, answers: Answers, t: string, a: string)
    requires HasWhatsApp(d.ledger.bindings, tenant)
    ensures (exists m :: m in d.drafts + DraftsWith(d, tenant, id, body, answers) && m.tenant == t && m.recipient == a)
      <==>
      (exists m :: m in d.drafts && m.tenant == t && m.recipient == a)
      || (tenant == t && answers.first && DraftAddress(d, tenant) == a)
  {
    hide HasWhatsApp, NormalizeJid, DraftRecipient;
    var news := DraftsWith(d, tenant, id, body, answers);
    if tenant == t && answers.first && DraftAddress(d, tenant) == a {
      assert news[0] in d.drafts + news;
    }
  }

  /** The draft after a correction goes where the binding says, and nowhere without a read-only one. */
  lemma CorrectionReachesExactly(d: Desk, tenant: string, id: Id, action: string, answers: Answers, t: string,
      a: string)
    ensures WritesTo(DraftCorrection(d, tenant, id, action, answers), t, a) <==>
      WritesTo(d, t, a)
      || (tenant == t && HasWhatsApp(d.ledger.bindings, t) && BindingOf(d, t).mode == ReadOnly && answers.first
        && DraftAddress(d, t) == a)
  {
    hide NormalizeJid, HasWhatsApp;
    if HasWhatsApp(d.ledger.bindings, tenant) && BindingOf(d, tenant).mode == ReadOnly {
      DraftsReach(d, tenant, id, CorrectedReply(action), answers, t, a);
    }
  }

  /** The tenant's binding is read-only and names the address nowhere. */
  ghost predicate Avoids(b: Table, t: string, a: string) {
    forall p :: IsWhatsAppOf(b, p, t) ==>
      b[p].mode == ReadOnly && b[p].draftJid != a && b[p].operatorJid != a && p.number != a
        && NormalizeJid(p.number) != a
  }

  /** The operation neither gives the tenant full control nor names the address for it. */
  predicate StaysAway(op: Op, t: string, a: string) {
    && (op.Loop? && op.op.ProvisionTenant? && op.op.tenant == t ==>
      op.op.number != a && NormalizeJid(op.op.number) != a)
    && (op.Loop? && op.op.Acknowledge? && op.op.tenant == t ==>
      && ParseMode(op.op.inboundMode) != Some(FullControl)
      && NormalizeJid(op.op.draft) != a && NormalizeJid(op.op.operatorJid) != a)
  }

  lemma ConsentAvoids(b: Table, tenant: string, mode: string, draft: string, operator: string, t: string, a: string)
    requires Avoids(b, t, a) && a != ""
    requires tenant == t ==>
      ParseMode(mode) != Some(FullControl) && NormalizeJid(draft) != a && NormalizeJid(operator) != a
    ensures Avoids(Consent(b, tenant, mode, draft, operator), t, a)
  {
    hide NormalizeJid;
    forall p | IsWhatsAppOf(Consent(b, tenant, mode, draft, operator), p, t) ensures IsWhatsAppOf(b, p, t) {
    }
  }

  lemma ClaimAvoids(b: Table, tenant: string, number: string, t: string, a: string)
    requires Avoids(b, t, a) && a != "" && (tenant == t ==> number != a && NormalizeJid(number) != a)
    ensures Avoids(Claim(b, tenant, number), t, a)
  {
    hide NormalizeJid;
    forall p | IsWhatsAppOf(Claim(b, tenant, number), p, t)
      ensures (p == WhatsApp(number) && tenant == t) || IsWhatsAppOf(b, p, t)
    {
    }
  }

  lemma LedgerAvoids(d: Desk, op: L.Op, t: string, a: string)
    requires Avoids(d.ledger.bindings, t, a) && a != ""
    requires StaysAway(Loop(op, 0, 0, Answers(false, false)), t, a)
    ensures Avoids(L.Step(d.ledger, op).bindings, t, a)
  {
    hide Avoids, NormalizeJid;
    match op
    case ProvisionTenant(_, _, _, _, _, _, _, _, _) => ClaimAvoids(d.ledger.bindings, op.tenant, op.number, t, a);
    case Acknowledge(tenant, mode, draft, operator) =>
      ConsentAvoids(d.ledger.bindings, tenant, mode, draft, operator, t, a);
    case Start(_, _, _, _, _, _, _) =>
    case Reply(_, _, _, _, _, _, _, _, _, _, _) =>
    case PromoteCandidate(_, _, _, _, _, _) =>
    case ReplayCase(_, _, _, _, _, _) =>
  }

  lemma AvoidedIsNotReached(d: Desk, tenant: string, id: Id, answers: Answers, a: string)
    requires Avoids(d.ledger.bindings, tenant, a) && a != ""
    ensures !Reaches(d, tenant, id, answers, a)
  {
    if HasWhatsApp(d.ledger.bindings, tenant) {
      assert IsWhatsAppOf(d.ledger.bindings, TheWhatsApp(d.ledger.bindings, tenant), tenant);
    }
  }

  lemma AvoidedIsNotDrafted(d: Desk, tenant: string, id: Id, action: string, answers: Answers, t: string, a: string)
    requires Avoids(d.ledger.bindings, t, a) && a != "" && !WritesTo(d, t, a)
    ensures !WritesTo(DraftCorrection(d, tenant, id, action, answers), t, a)
  {
    hide WritesTo, DraftCorrection, NormalizeJid;
    CorrectionReachesExactly(d, tenant, id, action, answers, t, a);
    if HasWhatsApp(d.ledger.bindings, t) {
      assert IsWhatsAppOf(d.ledger.bindings, TheWhatsApp(d.ledger.bindings, t), t);
    }
  }

  lemma StepStaysAway(d: Desk, op: Op, t: string, a: string)
    requires Avoids(d.ledger.bindings, t, a) && a != "" && !WritesTo(d, t, a) && StaysAway(op, t, a)
    ensures Avoids(Step(d, op).ledger.bindings, t, a) && !WritesTo(Step(d, op), t, a)
  {
    hide Avoids, Reaches, SendApproved, NormalizeJid, L.Step, DraftsWith;
    match op
    case Loop(inner, audit, out, answers) =>
      var next := d.(ledger := L.Step(d.ledger, inner));
      LedgerAvoids(d, inner, t, a);
      if Approves(d.ledger, inner) {
        var x := AuditOf(d.ledger, inner);
        var u := RecordApproval(next, audit, x);
        SendLeavesLedger(u, x.tenant, x.caseRun, out, answers);
        SendReachesExactly(u, x.tenant, x.caseRun, out, answers, t, a);
        if x.tenant == t {
          AvoidedIsNotReached(u, x.tenant, x.caseRun, answers, a);
        }
      } else if Corrects(d.ledger, inner) {
        var packet := d.ledger.docket.packets[inner.packet];
        AvoidedIsNotDrafted(next, packet.tenant, packet.caseRun, inner.action, answers, t, a);
      }
    case Retry(tenant, id, out, answers) =>
      SendLeavesLedger(d, tenant, id, out, answers);
      SendReachesExactly(d, tenant, id, out, answers, t, a);
      if tenant == t {
        AvoidedIsNotReached(d, tenant, id, answers, a);
      }
  }

  lemma {:induction false} RunStaysAway(d: Desk, ops: seq<Op>, t: string, a: string)
    requires Avoids(d.ledger.bindings, t, a) && a != "" && !WritesTo(d, t, a)
    requires forall op :: op in ops ==> StaysAway(op, t, a)
    ensures !WritesTo(Run(d, ops), t, a)
    decreases |ops|
  {
    if ops != [] {
      hide Avoids, WritesTo, StaysAway, Step;
      assert ops[0] in ops && forall op :: op in ops[1..] ==> op in ops;
      StepStaysAway(d, ops[0], t, a);
      RunStaysAway(Step(d, ops[0]), ops[1..], t, a);
    }
  }

  /** A read-only tenant never writes to an address that its number and its consents do not name,
   *  whatever its cases say and however often they are approved.
   */
  lemma ReadOnlyStaysAway(ops: seq<Op>, t: string, a: string)
    requires a != "" && forall op :: op in ops ==> StaysAway(op, t, a)
    ensures !WritesTo(Run(EMPTY, ops), t, a)
  {
    RunStaysAway(EMPTY, ops, t, a);
  }

  /** In read-only mode an attempt writes to the customer of its case exactly when the binding sends drafts
   *  to the customer's own address.
   */
  lemma ReadOnlyReachesCustomerExactly(d: Desk, t: string, id: Id, out: Id, answers: Answers)
    requires HasRun(d.ledger.docket, t, id) && HasWhatsApp(d.ledger.bindings, t) && BindingOf(d, t).mode == ReadOnly
    ensures var customer := NormalizeJid(CustomerOf(d.ledger.docket.runs[id]));
      WritesTo(Step(d, Retry(t, id, out, answers)), t, customer) <==>
        WritesTo(d, t, customer) || (answers.first && DraftAddress(d, t) == customer)
  {
    hide NormalizeJid, SendApproved, WritesTo, HasWhatsApp;
    SendReachesExactly(d, t, id, out, answers, t, NormalizeJid(CustomerOf(d.ledger.docket.runs[id])));
  }

  /** Named as the draft address in read-only mode, the customer of a case does get the draft: no
   *  approval is asked for and the guard lets it through.
   */
  lemma DraftAddressMayBeTheCustomer(d: Desk, t: string, id: Id, out: Id, draft: string, audit: Id)
    requires HasWhatsApp(d.ledger.bindings, t) && OnePerChannel(d.ledger.bindings) && HasRun(d.ledger.docket, t, id)
    requires draft != "" && NormalizeJid(draft) == NormalizeJid(CustomerOf(d.ledger.docket.runs[id])) != ""
    ensures var answers := Answers(true, true);
      var consent := Loop(L.Acknowledge(t, "read_only", draft, ""), audit, out, answers);
      var v := Step(d, consent);
      && WritesTo(Step(v, Retry(t, id, out, answers)), t, NormalizeJid(CustomerOf(d.ledger.docket.runs[id])))
      && HasWhatsApp(v.ledger.bindings, t)
      && GuardAllows(BindingOf(v, t), TheWhatsApp(v.ledger.bindings, t).number, DraftAddress(v, t))
  {
    hide NormalizeJid, GuardAllows;
    var answers := Answers(true, true);
    var v := Step(d, Loop(L.Acknowledge(t, "read_only", draft, ""), audit, out, answers));
    var p := TheWhatsApp(d.ledger.bindings, t);
    assert IsWhatsAppOf(v.ledger.bindings, p, t);
    ConsentKeepsOne(d.ledger.bindings, t, "read_only", draft, "");
    assert TheWhatsApp(v.ledger.bindings, t) == p;
    SendReachesExactly(v, t, id, out, answers, t, DraftAddress(v, t));
    GuardAllowsDraft(BindingOf(v, t), p.number);
  }
}
