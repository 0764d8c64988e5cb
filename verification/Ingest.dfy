/** Customer messages turned into cases: IngestCustomerMessageWithPacket of internal/app/app.go over the
 *  message tables of internal/store/memory/store.go, on top of the correction loop.
 */
module Ingest {
  import opened App
  import opened Cases
  import opened Conditions
  import opened Confidence
  import opened Learning
  import opened Strings
  import L = CorrectionLoop

  datatype Event = Event(
    tenant: string, channel: string, source: string, customer: string, body: string,
    subject: string, receivedAt: string)

  datatype SourceKey = SourceKey(tenant: string, channel: string, source: string)

  datatype CustomerMessage = CustomerMessage(key: SourceKey, customer: string, body: string, caseRun: Option<Id>,
    failed: bool)

  datatype Inbox = Inbox(ledger: L.Ledger, messages: map<Id, CustomerMessage>, byKey: map<SourceKey, Id>)

  const EMPTY := Inbox(L.EMPTY, map[], map[])

  /** How StartCase ends: it succeeds unless its own checks refuse, it fails before storing anything, or
   *  it fails after storing the case (the gateway refuses the packet).
   */
  datatype Fate = Succeeds | FailsEarly | FailsLate

  datatype Op =
    | Loop(op: L.Op)
    | Ingest(event: Event, message: Id, agent: Option<string>, ids: StartIds, now: int, fate: Fate)

  datatype Outcome = Accepted(caseRun: Id) | Refused

  function Trimmed(e: Event): Event {
    e.(tenant := TrimSpace(e.tenant), channel := TrimSpace(e.channel), source := TrimSpace(e.source),
       customer := TrimSpace(e.customer), body := TrimSpace(e.body))
  }

  function KeyOfEvent(e: Event): SourceKey {
    SourceKey(TrimSpace(e.tenant), TrimSpace(e.channel), TrimSpace(e.source))
  }

  predicate Complete(e: Event) {
    var t := Trimmed(e);
    t.tenant != "" && t.channel != "" && t.source != "" && t.customer != "" && t.body != ""
  }

  function Excerpt(body: string): string {
    var clean := TrimSpace(body);
    if |clean| <= 180 then clean else TrimSpace(clean[..180])
  }

  function PayloadOf(e: Event): Payload {
    var t := Trimmed(e);
    var base := map[
      "sandbox" := Value(false, "true", "true"),
      "source_channel" := Text(t.channel), "source_message_id" := Text(t.source),
      "customer_identifier" := Text(t.customer), "received_at" := Text(t.receivedAt), "body_text" := Text(t.body),
      "message_excerpt" := Text(Excerpt(t.body)), "from" := Text(t.customer)];
    if TrimSpace(t.subject) != "" then base["subject" := Text(TrimSpace(t.subject))] else base
  }

  function StartOf(op: Op): L.Op
    requires op.Ingest?
  {
    L.Start(TrimSpace(op.event.tenant), "enquiry_triage", "sandbox", PayloadOf(op.event), op.agent, op.ids, op.now)
  }

  // ----- The steps

  predicate Knows(b: Inbox, k: SourceKey) {
    k in b.byKey && b.byKey[k] in b.messages
  }

  /** The case a message has been turned into. */
  predicate HasCase(b: Inbox, k: SourceKey, run: Id) {
    Knows(b, k) && b.messages[b.byKey[k]].caseRun == Some(run)
  }

  /** The first message of a key is stored, later ones are not. */
  function Remember(b: Inbox, id: Id, e: Event): Inbox {
    var k := KeyOfEvent(e);
    if k in b.byKey then b
    else b.(messages := b.messages[id := CustomerMessage(k, TrimSpace(e.customer), TrimSpace(e.body), None, false)],
            byKey := b.byKey[k := id])
  }

  function SetCase(b: Inbox, k: SourceKey, run: Option<Id>): Inbox {
    if !Knows(b, k) then b
    else b.(messages := b.messages[b.byKey[k] := b.messages[b.byKey[k]].(caseRun := run, failed := run.None?)])
  }

  predicate StartWorks(l: L.Ledger, op: Op)
    requires op.Ingest?
  {
    var s := StartOf(op);
    op.fate == Succeeds && StartCheck(l.shelf, s.tenant, s.workflow, s.mode, s.payload).None?
  }

  predicate Processable(b: Inbox, e: Event) {
    Complete(e) && TrimSpace(e.tenant) in b.ledger.shelf.verticals
  }

  function OutcomeOf(b: Inbox, op: Op): Outcome
    requires op.Ingest?
  {
    var k := KeyOfEvent(op.event);
    if !Processable(b, op.event) then Refused
    else if Knows(b, k) && b.messages[b.byKey[k]].caseRun.Some? then Accepted(b.messages[b.byKey[k]].caseRun.value)
    else if StartWorks(b.ledger, op) then Accepted(op.ids.run)
    else Refused
  }

  /** The ledger once the start was attempted. */
  ghost function Begun(b: Inbox, op: Op): Inbox
    requires op.Ingest?
  {
    if op.fate == FailsEarly then b else b.(ledger := L.Step(b.ledger, StartOf(op)))
  }

  function CaseOf(l: L.Ledger, op: Op): Option<Id>
    requires op.Ingest?
  {
    if StartWorks(l, op) then Some(op.ids.run) else None
  }

  ghost function StepIngest(b: Inbox, op: Op): Inbox
    requires op.Ingest?
  {
    var k := KeyOfEvent(op.event);
    if !Processable(b, op.event) || (Knows(b, k) && b.messages[b.byKey[k]].caseRun.Some?) then b
    else
      SetCase(Begun(Remember(b, op.message, op.event), op), k, CaseOf(b.ledger, op))
  }

  ghost function Step(b: Inbox, op: Op): Inbox {
    match op
    case Loop(inner) => b.(ledger := L.Step(b.ledger, inner))
    case Ingest(_, _, _, _, _, _) => StepIngest(b, op)
  }

  ghost function Run(b: Inbox, ops: seq<Op>): Inbox
    decreases |ops|
  {
    if ops == [] then b else Run(Step(b, ops[0]), ops[1..])
  }

  ghost predicate Fresh(b: Inbox, op: Op) {
    match op
    case Loop(inner) => L.Fresh(b.ledger, inner)
    case Ingest(_, message, _, _, _, _) => message !in b.messages && L.Fresh(b.ledger, StartOf(op))
  }

  ghost predicate FreshRun(b: Inbox, ops: seq<Op>)
    decreases |ops|
  {
    ops == [] || (Fresh(b, ops[0]) && FreshRun(Step(b, ops[0]), ops[1..]))
  }

  // ----- What holds in every reachable state

  ghost predicate Keyed(b: Inbox) {
    && (forall i :: i in b.messages ==> b.messages[i].key in b.byKey && b.byKey[b.messages[i].key] == i)
    && (forall k :: k in b.byKey ==> b.byKey[k] in b.messages && b.messages[b.byKey[k]].key == k)
  }

  /** A recorded case exists and belongs to the tenant of its message. */
  ghost predicate CasesExist(b: Inbox) {
    forall i :: i in b.messages && b.messages[i].caseRun.Some? ==>
      HasRun(b.ledger.docket, b.messages[i].key.tenant, b.messages[i].caseRun.value)
  }

  ghost predicate Inv(b: Inbox) {
    L.Inv(b.ledger) && L.SlotsFilled(b.ledger.shelf) && Keyed(b) && CasesExist(b)
  }

  /** What was known stays known, and a recorded case stays recorded. */
  ghost predicate Kept(b: Inbox, c: Inbox) {
    && b.ledger.shelf.verticals.Keys <= c.ledger.shelf.verticals.Keys
    && forall k, run :: HasCase(b, k, run) ==> HasCase(c, k, run)
  }

  lemma LedgerKeepsCases(b: Inbox, l: L.Ledger)
    requires CasesExist(b) && L.RunsKept(b.ledger.docket, l.docket)
    ensures CasesExist(b.(ledger := l))
  {
  }

  lemma RememberKeeps(b: Inbox, id: Id, e: Event)
    requires Keyed(b) && CasesExist(b) && id !in b.messages
    ensures Keyed(Remember(b, id, e)) && CasesExist(Remember(b, id, e)) && Kept(b, Remember(b, id, e))
    ensures Knows(Remember(b, id, e), KeyOfEvent(e))
  {
  }

  lemma SetCaseKeeps(b: Inbox, k: SourceKey, run: Option<Id>)
    requires Keyed(b) && CasesExist(b) && Knows(b, k) && b.messages[b.byKey[k]].caseRun.None?
    requires run.Some? ==> HasRun(b.ledger.docket, k.tenant, run.value)
    ensures Keyed(SetCase(b, k, run)) && CasesExist(SetCase(b, k, run)) && Kept(b, SetCase(b, k, run))
  {
    var v := SetCase(b, k, run);
    assert v.messages.Keys == b.messages.Keys;
  }

  lemma LedgerKeepsTenants(l: L.Ledger, op: L.Op)
    ensures l.shelf.verticals.Keys <= L.Step(l, op).shelf.verticals.Keys
  {
  }

  lemma LedgerStepKeeps(b: Inbox, op: L.Op)
    requires Inv(b) && L.Fresh(b.ledger, op)
    ensures var v := b.(ledger := L.Step(b.ledger, op)); Inv(v) && Kept(b, v)
  {
    hide L.Step, L.Inv, L.Fresh;
    L.StepKeepsInv(b.ledger, op);
    L.StepPersists(b.ledger, op);
    LedgerKeepsCases(b, L.Step(b.ledger, op));
    LedgerKeepsTenants(b.ledger, op);
    L.StepKeepsSlots(b.ledger, op);
  }

  lemma StartedRunExists(l: L.Ledger, op: Op)
    requires op.Ingest? && StartWorks(l, op)
    ensures HasRun(L.Step(l, StartOf(op)).docket, TrimSpace(op.event.tenant), op.ids.run)
  {
  }

  lemma IngestStepKeeps(b: Inbox, op: Op)
    requires Inv(b) && Fresh(b, op) && op.Ingest?
    ensures Inv(Step(b, op)) && Kept(b, Step(b, op))
  {
    hide L.Step, L.Inv, L.Fresh;
    var k := KeyOfEvent(op.event);
    if Step(b, op) != b {
      var known := Remember(b, op.message, op.event);
      var begun := Begun(known, op);
      RememberKeeps(b, op.message, op.event);
      LedgerStepKeeps(known, StartOf(op));
      if StartWorks(b.ledger, op) {
        StartedRunExists(b.ledger, op);
        SetCaseKeeps(begun, k, Some(op.ids.run));
      } else {
        SetCaseKeeps(begun, k, None);
      }
    }
  }

  lemma StepKeeps(b: Inbox, op: Op)
    requires Inv(b) && Fresh(b, op)
    ensures Inv(Step(b, op)) && Kept(b, Step(b, op))
  {
    match op
    case Loop(inner) => LedgerStepKeeps(b, inner);
    case Ingest(_, _, _, _, _, _) => IngestStepKeeps(b, op);
  }

  lemma {:induction false} RunKeeps(b: Inbox, ops: seq<Op>)
    requires Inv(b) && FreshRun(b, ops)
    ensures Inv(Run(b, ops)) && Kept(b, Run(b, ops))
    decreases |ops|
  {
    if ops != [] {
      StepKeeps(b, ops[0]);
      RunKeeps(Step(b, ops[0]), ops[1..]);
    }
  }

  lemma ReachableInv(ops: seq<Op>)
    requires FreshRun(EMPTY, ops)
    ensures Inv(Run(EMPTY, ops))
  {
    L.EmptyInv();
    RunKeeps(EMPTY, ops);
  }

  // ----- What it means

  /** A successful ingest records its case under the message. */
  lemma AcceptedIsRecorded(b: Inbox, op: Op)
    requires Inv(b) && Fresh(b, op) && op.Ingest? && OutcomeOf(b, op).Accepted?
    ensures HasCase(Step(b, op), KeyOfEvent(op.event), OutcomeOf(b, op).caseRun)
  {
    hide L.Step, L.Inv, L.Fresh, PayloadOf, TrimSpace;
    RememberKeeps(b, op.message, op.event);
  }

  /** Once an ingest has succeeded, every later delivery of the same message, however the attempts in
   *  between ended, succeeds with the same case and changes nothing.
   */
  lemma IngestIsIdempotent(b: Inbox, first: Op, ops: seq<Op>, again: Op)
    requires Inv(b) && Fresh(b, first) && first.Ingest? && OutcomeOf(b, first).Accepted?
    requires FreshRun(Step(b, first), ops)
    requires again.Ingest? && Complete(again.event) && KeyOfEvent(again.event) == KeyOfEvent(first.event)
    ensures OutcomeOf(Run(Step(b, first), ops), again) == OutcomeOf(b, first)
    ensures Step(Run(Step(b, first), ops), again) == Run(Step(b, first), ops)
    ensures HasRun(Run(Step(b, first), ops).ledger.docket, KeyOfEvent(first.event).tenant, OutcomeOf(b, first).caseRun)
  {
    StepKeeps(b, first);
    RunKeeps(Step(b, first), ops);
    AcceptedIsRecorded(b, first);
    assert HasCase(Run(Step(b, first), ops), KeyOfEvent(first.event), OutcomeOf(b, first).caseRun);
  }

  /** The start of an enquiry for a known tenant is never refused. */
  lemma EnquiryCanStart(b: Inbox, op: Op)
    requires Inv(b) && op.Ingest? && Processable(b, op.event)
    ensures StartCheck(b.ledger.shelf, StartOf(op).tenant, StartOf(op).workflow, StartOf(op).mode,
      StartOf(op).payload).None?
  {
    L.ActiveVersionExists(b.ledger.shelf, TrimSpace(op.event.tenant), "enquiry_triage");
    assert IsTrue(PayloadOf(op.event), "sandbox");
    hide L.Inv, PayloadOf, TrimSpace, CasesExist, Keyed;
  }

  lemma CaseIsThere(l: L.Ledger, op: Op)
    requires op.Ingest?
    requires StartCheck(l.shelf, StartOf(op).tenant, StartOf(op).workflow, StartOf(op).mode, StartOf(op).payload).None?
    ensures op.ids.run in L.Step(l, StartOf(op)).docket.runs
  {
    hide StartCheck, PayloadOf, TrimSpace;
  }

  /** An ingest succeeds exactly for a complete message of a known tenant that has a case already or
   *  whose start is not failed by something outside: the start's own checks never refuse it.
   */
  lemma AcceptedExactly(b: Inbox, op: Op)
    requires Inv(b) && op.Ingest?
    ensures OutcomeOf(b, op).Accepted? <==>
      && TrimSpace(op.event.tenant) != "" && TrimSpace(op.event.channel) != "" && TrimSpace(op.event.source) != ""
      && TrimSpace(op.event.customer) != "" && TrimSpace(op.event.body) != ""
      && TrimSpace(op.event.tenant) in b.ledger.shelf.verticals
      && ((exists run :: HasCase(b, KeyOfEvent(op.event), run)) || op.fate == Succeeds)
  {
    var k := KeyOfEvent(op.event);
    if Processable(b, op.event) {
      EnquiryCanStart(b, op);
    }
    hide L.Inv, StartCheck, PayloadOf, L.SlotsFilled, CasesExist, TrimSpace;
    if Knows(b, k) && b.messages[b.byKey[k]].caseRun.Some? {
      assert HasCase(b, k, b.messages[b.byKey[k]].caseRun.value);
    }
  }

  /** A failed attempt at a well-formed message does not poison it: the next one that can start a case succeeds. */
  lemma FailureCanBeRetried(b: Inbox, failed: Op, again: Op)
    requires Keyed(b) && CasesExist(b) && failed.Ingest? && failed.message !in b.messages
      && Processable(b, failed.event) && OutcomeOf(b, failed) == Refused
    requires again.Ingest? && KeyOfEvent(again.event) == KeyOfEvent(failed.event)
    requires Processable(Step(b, failed), again.event) && StartWorks(Step(b, failed).ledger, again)
    ensures OutcomeOf(Step(b, failed), again) == Accepted(again.ids.run)
  {
    RememberKeeps(b, failed.message, failed.event);
  }

  // ----- What is ingested

  predicate Shows(payload: Payload, field: string, text: string) {
    field in payload && payload[field].printed == text
  }

  /** The payload tells the event: which field of the one is where in the other, trimmed, and nothing besides. */
  ghost predicate Tells(payload: Payload, e: Event) {
    && Shows(payload, "sandbox", "true")
    && Shows(payload, "source_channel", TrimSpace(e.channel))
    && Shows(payload, "source_message_id", TrimSpace(e.source))
    && Shows(payload, "customer_identifier", TrimSpace(e.customer))
    && Shows(payload, "from", TrimSpace(e.customer))
    && Shows(payload, "received_at", e.receivedAt)
    && Shows(payload, "body_text", TrimSpace(e.body))
    && (if |TrimSpace(e.body)| <= 180 then Shows(payload, "message_excerpt", TrimSpace(e.body))
        else Shows(payload, "message_excerpt", TrimSpace(TrimSpace(e.body)[..180])))
    && ("subject" in payload <==> TrimSpace(e.subject) != "")
    && ("subject" in payload ==> Shows(payload, "subject", TrimSpace(e.subject)))
    && payload.Keys - {"subject"} == {"sandbox", "source_channel", "source_message_id", "customer_identifier", "from",
      "received_at", "body_text", "message_excerpt"}
  }

  /** Trimming twice is trimming once. */
  lemma {:induction false} TrimTwice(s: string)
    ensures TrimSpace(TrimSpace(s)) == TrimSpace(s)
  {
    if s != "" && IsSpace(s[0]) {
      TrimTwice(s[1..]);
    } else if s != "" && IsSpace(s[|s| - 1]) {
      TrimTwice(s[..|s| - 1]);
    }
  }

  lemma PayloadTells(e: Event)
    ensures Tells(PayloadOf(e), e)
  {
    TrimTwice(e.body);
    hide TrimSpace;
  }

  /** Two events are deliveries of one message exactly when tenant, channel and source agree, blanks aside. */
  lemma SameMessageExactly(a: Event, b: Event)
    ensures KeyOfEvent(a) == KeyOfEvent(b) <==>
      && TrimSpace(a.tenant) == TrimSpace(b.tenant) && TrimSpace(a.channel) == TrimSpace(b.channel)
      && TrimSpace(a.source) == TrimSpace(b.source)
  {
  }

  /** An ingest that succeeds and finds no case starts one: the enquiry of that event, for its tenant. */
  lemma IngestStarts(b: Inbox, op: Op)
    requires Inv(b) && Fresh(b, op) && op.Ingest? && OutcomeOf(b, op).Accepted?
    requires forall run :: !HasCase(b, KeyOfEvent(op.event), run)
    ensures var v := Step(b, op);
      && op.ids.run in v.ledger.docket.runs && HasCase(v, KeyOfEvent(op.event), op.ids.run)
      && v.ledger.docket.runs[op.ids.run].tenant == TrimSpace(op.event.tenant)
      && v.ledger.docket.runs[op.ids.run].workflow == "enquiry_triage"
      && Tells(v.ledger.docket.runs[op.ids.run].payload, op.event)
  {
    PayloadTells(op.event);
    hide L.Inv, Tells, TrimSpace, PayloadOf, CasesExist;
    var k := KeyOfEvent(op.event);
    assert Knows(b, k) && b.messages[b.byKey[k]].caseRun.Some? ==> HasCase(b, k, b.messages[b.byKey[k]].caseRun.value);
    AcceptedIsRecorded(b, op);
  }

  /** An attempt that got as far as a start is noted: its case, or that it failed; the message itself is kept as it
   *  first came, trimmed.
   */
  lemma AttemptIsNoted(b: Inbox, op: Op)
    requires Keyed(b) && op.Ingest? && op.message !in b.messages && Processable(b, op.event)
    requires forall run :: !HasCase(b, KeyOfEvent(op.event), run)
    ensures var v, k := Step(b, op), KeyOfEvent(op.event);
      && Knows(v, k) && v.messages[v.byKey[k]].failed == OutcomeOf(b, op).Refused?
      && v.messages[v.byKey[k]].caseRun ==
        (if OutcomeOf(b, op).Accepted? then Some(OutcomeOf(b, op).caseRun) else None)
      && v.messages[v.byKey[k]].customer ==
        (if Knows(b, k) then b.messages[b.byKey[k]].customer else TrimSpace(op.event.customer))
      && v.messages[v.byKey[k]].body ==
        (if Knows(b, k) then b.messages[b.byKey[k]].body else TrimSpace(op.event.body))
  {
    hide L.Step, TrimSpace, PayloadOf, StartCheck;
    var k := KeyOfEvent(op.event);
    assert Knows(b, k) && b.messages[b.byKey[k]].caseRun.Some? ==> HasCase(b, k, b.messages[b.byKey[k]].caseRun.value);
  }

  /** An attempt that finds no case changes the ledger exactly by the start it gets to: not at all when it fails
   *  before storing, but by a whole case when it fails after, which the message then does not know of.
   */
  lemma LateFailureLeavesACase(b: Inbox, op: Op)
    requires Inv(b) && op.Ingest? && op.message !in b.messages && Processable(b, op.event)
    requires forall run :: !HasCase(b, KeyOfEvent(op.event), run)
    ensures op.fate == FailsEarly ==> Step(b, op).ledger == b.ledger && OutcomeOf(b, op) == Refused
    ensures op.fate == FailsLate ==>
      && op.ids.run in Step(b, op).ledger.docket.runs && OutcomeOf(b, op) == Refused
      && forall run :: !HasCase(Step(b, op), KeyOfEvent(op.event), run)
  {
    var k := KeyOfEvent(op.event);
    assert Knows(b, k) && b.messages[b.byKey[k]].caseRun.Some? ==> HasCase(b, k, b.messages[b.byKey[k]].caseRun.value);
    EnquiryCanStart(b, op);
    hide L.Inv, PayloadOf, TrimSpace, CasesExist, StartCheck, L.SlotsFilled, Complete, L.Step;
    if op.fate == FailsLate {
      CaseIsThere(b.ledger, op);
    }
  }

  // ----- The object

  class CustomerInbox {
    const app: App
    var customerMsgs: map<Id, CustomerMessage>
    var customerByKey: map<SourceKey, Id>

    ghost function State(): Inbox
      reads this, app, app.candidates, app.rules, app.cases
    {
      Inbox(app.State(), customerMsgs, customerByKey)
    }

    ghost predicate Valid()
      reads this, app, app.candidates, app.rules, app.cases
    {
      app.Valid() && Inv(State())
    }

    constructor (math: Math)
      requires math.Lawful()
      ensures Valid() && State() == EMPTY
      ensures fresh(app) && fresh(app.candidates) && fresh(app.rules) && fresh(app.cases)
    {
      app := new App(math);
      customerMsgs, customerByKey := map[], map[];
    }

    method CreateCustomerMessage(id: Id, e: Event) returns (created: bool, stored: CustomerMessage)
      requires Keyed(State())
      modifies this`customerMsgs, this`customerByKey
      ensures State() == Remember(old(State()), id, e)
      ensures Knows(State(), KeyOfEvent(e)) && stored == customerMsgs[customerByKey[KeyOfEvent(e)]]
      ensures created <==> KeyOfEvent(e) !in old(customerByKey)
    {
      var key := KeyOfEvent(e);
      if key in customerByKey {
        return false, customerMsgs[customerByKey[key]];
      }
      stored := CustomerMessage(key, TrimSpace(e.customer), TrimSpace(e.body), None, false);
      customerMsgs := customerMsgs[id := stored];
      customerByKey := customerByKey[key := id];
      created := true;
    }

    method UpdateCustomerMessageCase(key: SourceKey, caseRun: Option<Id>)
      requires Keyed(State())
      modifies this`customerMsgs
      ensures State() == SetCase(old(State()), key, caseRun)
    {
      if key !in customerByKey {
        return;
      }
      var id := customerByKey[key];
      customerMsgs := customerMsgs[id := customerMsgs[id].(caseRun := caseRun, failed := caseRun.None?)];
    }

    /** StartCase as this caller sees it: `ok` says whether it returned without an error. */
    method TryStart(op: Op) returns (ok: bool)
      requires op.Ingest? && app.Valid() && L.Fresh(app.State(), StartOf(op))
      modifies app.cases
      ensures app.Valid() && ok == StartWorks(old(app.State()), op)
      ensures app.State() == if op.fate == FailsEarly then old(app.State()) else L.Step(old(app.State()), StartOf(op))
    {
      hide L.Step, L.Inv;
      if op.fate == FailsEarly {
        return false;
      }
      var s := StartOf(op);
      var error := app.StartCase(s);
      ok := error.None? && op.fate == Succeeds;
    }

    /** Start the case of a stored message and record what came of it. */
    method StartAndRecord(op: Op) returns (outcome: Outcome)
      requires op.Ingest? && app.Valid() && L.Fresh(app.State(), StartOf(op)) && Keyed(State())
      modifies this`customerMsgs, app.cases
      ensures app.Valid()
      ensures State() == SetCase(Begun(old(State()), op), KeyOfEvent(op.event), CaseOf(old(app.State()), op))
      ensures outcome == if StartWorks(old(app.State()), op) then Accepted(op.ids.run) else Refused
    {
      hide L.Step, L.Inv, L.Fresh, PayloadOf, TrimSpace, StartCheck, KeyOfEvent, SetCase;
      var key := KeyOfEvent(op.event);
      var ok := TryStart(op);
      if !ok {
        UpdateCustomerMessageCase(key, None);
        return Refused;
      }
      UpdateCustomerMessageCase(key, Some(op.ids.run));
      return Accepted(op.ids.run);
    }

    method IngestCustomerMessage(op: Op) returns (outcome: Outcome)
      requires op.Ingest? && Valid() && Fresh(State(), op)
      modifies this, app.cases
      ensures Valid() && State() == Step(old(State()), op) && outcome == OutcomeOf(old(State()), op)
    {
      hide L.Step, L.Inv, L.Fresh, L.SlotsFilled, CasesExist, PayloadOf, TrimSpace, StartCheck, Complete, KeyOfEvent,
        SetCase;
      StepKeeps(State(), op);
      RememberKeeps(State(), op.message, op.event);
      if !Complete(op.event) || TrimSpace(op.event.tenant) !in app.rules.tenants {
        return Refused;
      }
      var created, stored := CreateCustomerMessage(op.message, op.event);
      if !created && stored.caseRun.Some? {
        return Accepted(stored.caseRun.value);
      }
      outcome := StartAndRecord(op);
    }
  }
}
