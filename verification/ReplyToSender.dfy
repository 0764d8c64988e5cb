/** From a customer's message to the reply: what is sent for an ingested case goes to whoever wrote in
 *  (internal/app/app.go, internal/app/helpers.go).
 */
module ReplyToSender {
  import opened Bindings
  import opened Strings
  import I = Ingest
  import O = CustomerOutbound
  import L = CorrectionLoop

  /** The desk at the moment the message has been ingested, with nothing sent yet. */
  ghost function DeskAfter(b: I.Inbox, op: I.Op): O.Desk {
    O.EMPTY.(ledger := I.Step(b, op).ledger)
  }

  lemma EmptyDesk(l: L.Ledger)
    requires L.Inv(l)
    ensures O.Inv(O.EMPTY.(ledger := l)) && O.SendsNameCustomers(O.EMPTY.(ledger := l))
  {
  }

  /** Through any run of approvals, retries and everything else, the only address written to for the case of an
   *  ingested message is that of the customer who sent it.
   */
  lemma RepliesGoToTheSender(b: I.Inbox, op: I.Op, ops: seq<O.Op>, m: O.Outbound)
    requires I.Inv(b) && I.Fresh(b, op) && op.Ingest? && I.OutcomeOf(b, op).Accepted?
    requires forall run :: !I.HasCase(b, I.KeyOfEvent(op.event), run)
    requires O.FreshRun(DeskAfter(b, op), ops)
    requires m in O.Run(DeskAfter(b, op), ops).sends && m.caseRun == op.ids.run
    ensures m.tenant == TrimSpace(op.event.tenant)
    ensures m.recipient == NormalizeJid(TrimSpace(op.event.customer))
  {
    I.IngestStarts(b, op);
    I.StepKeeps(b, op);
    EmptyDesk(I.Step(b, op).ledger);
    hide I.Step, I.Inv, I.Fresh, L.Inv, O.Run, O.FreshRun, O.Inv, TrimSpace, NormalizeJid;
    O.RunKeepsCustomers(DeskAfter(b, op), ops);
    O.RunKeepsCases(DeskAfter(b, op), ops);
  }
}
