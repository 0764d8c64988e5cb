/** What a rule says is what an operator taught: the way of one correction from its reply to the decision of
 *  later cases, over whole runs (internal/app/app.go, internal/app/rules.go).
 */
module Taught {
  import opened Bindings
  import opened Cases
  import opened Conditions
  import opened Confidence
  import opened CorrectionLoop
  import opened InStep
  import opened Learning
  import opened Rules
  import opened Sorting

  // ----- Where candidates and rules come from

  /** The candidate says what the correction said: same conditions in some order, same action, for the decision
   *  of that case, and for that case alone unless the operator said more.
   */
  ghost predicate SaysWhat(c: Candidate, x: Correction) {
    && x.conditions != [] && x.action != ""
    && multiset(c.conditions) == multiset(x.conditions) && c.action == x.action
    && c.key.tenant == x.tenant && c.key.workflow == x.workflow && c.key.decisionType == x.decisionType
    && (x.scopeHint.None? ==> c.scope == CaseScope)
    && (x.scopeHint.Some? ==> c.scope == x.scopeHint.value)
    && Map(Encode, c.conditions) == c.key.hash
  }

  /** The oldest piece of evidence is the correction that opened the candidate. */
  ghost predicate IsTaught(l: Learn, c: Candidate) {
    c.corrections != [] && c.corrections[0] in l.corrections && SaysWhat(c, l.corrections[c.corrections[0]])
  }

  ghost predicate CandidatesTaught(l: Learn) {
    forall m :: m in l.candidates ==> IsTaught(l, l.candidates[m])
  }

  /** The rule says what its candidate says. */
  ghost predicate ComesFrom(r: Rule, c: Candidate) {
    && r.key == c.key && r.conditions == c.conditions && r.action == c.action && r.scope == c.scope
    && r.vertical == "" && r.reviewer != ""
  }

  ghost predicate RulesTaught(l: Ledger) {
    forall r :: r in l.shelf.rules ==>
      && l.shelf.rules[r].candidate in l.learn.candidates
      && ComesFrom(l.shelf.rules[r], l.learn.candidates[l.shelf.rules[r].candidate])
  }

  ghost predicate AllTaught(l: Ledger) {
    CandidatesTaught(l.learn) && RulesTaught(l)
  }

  /** What is never rewritten in a candidate. */
  ghost predicate SameLesson(a: Candidate, b: Candidate) {
    && a.key == b.key && a.conditions == b.conditions && a.action == b.action && a.scope == b.scope
    && a.createdAt == b.createdAt && a.corrections <= b.corrections
  }

  ghost predicate LessonsKept(a: Learn, b: Learn) {
    && (forall m :: m in a.candidates ==> m in b.candidates && SameLesson(a.candidates[m], b.candidates[m]))
    && (forall x :: x in a.corrections ==> x in b.corrections && b.corrections[x] == a.corrections[x])
  }

  lemma LessonStays(a: Learn, b: Learn, m: Id)
    requires LessonsKept(a, b) && m in a.candidates && IsTaught(a, a.candidates[m])
    ensures IsTaught(b, b.candidates[m])
  {
  }

  /** Merging one correction rewrites no lesson. */
  lemma MergeKeepsLessons(l: Learn, id: Id, c: Correction, newId: Id, now: int)
    requires newId !in l.candidates
    ensures LessonsKept(l, Merge(l, id, c, newId, now))
  {
    hide KeyOf, StatusFor;
  }

  lemma OpenedIsTaught(l: Learn, id: Id, c: Correction, newId: Id, now: int)
    requires id in l.corrections && l.corrections[id] == c && Parsed(c)
    ensures newId in OpenCandidate(l, id, c, newId, now).candidates
    ensures var v := OpenCandidate(l, id, c, newId, now);
      IsTaught(v, v.candidates[newId]) && v.candidates[newId].createdAt == v.candidates[newId].lastSeenAt == now
  {
  }

  lemma MergeKeepsTaught(l: Learn, id: Id, c: Correction, newId: Id, now: int)
    requires CandidatesTaught(l) && newId !in l.candidates && id in l.corrections && l.corrections[id] == c
    ensures CandidatesTaught(Merge(l, id, c, newId, now))
  {
    var v := Merge(l, id, c, newId, now);
    MergeKeepsLessons(l, id, c, newId, now);
    MergeOpensTaught(l, id, c, newId, now);
    forall m | m in v.candidates ensures IsTaught(v, v.candidates[m]) {
      if m in l.candidates {
        LessonStays(l, v, m);
      }
    }
  }

  lemma MergeOpensTaught(l: Learn, id: Id, c: Correction, newId: Id, now: int)
    requires id in l.corrections && l.corrections[id] == c && newId !in l.candidates
    ensures var v := Merge(l, id, c, newId, now);
      forall m :: m in v.candidates && m !in l.candidates ==> m == newId && IsTaught(v, v.candidates[m])
  {
    if Parsed(c) && !HasMatch(l.candidates, KeyOf(c), c.action) {
      OpenedIsTaught(l, id, c, newId, now);
    }
  }

  lemma ReceiveKeepsTaught(l: Learn, s: SignalId, id: Id, k: CorrectionKey, c: Correction, newId: Id, now: int)
    requires CandidatesTaught(l) && id !in l.corrections && newId !in l.candidates
    ensures CandidatesTaught(Receive(l, s, id, k, c, newId, now))
    ensures LessonsKept(l, Receive(l, s, id, k, c, newId, now))
  {
    var stored := Store(MarkSeen(l, s), id, k, c);
    hide Merge, IsTaught;
    assert LessonsKept(l, MarkSeen(l, s)) && LessonsKept(l, stored);
    forall m | m in l.candidates
      ensures IsTaught(MarkSeen(l, s), l.candidates[m]) && IsTaught(stored, l.candidates[m])
    {
      LessonStays(l, MarkSeen(l, s), m);
      LessonStays(l, stored, m);
    }
    MergeKeepsLessons(stored, id, c, newId, now);
    MergeKeepsTaught(stored, id, c, newId, now);
  }

  lemma PromoteInKeepsTaught(l: Learn, m: Id)
    requires CandidatesTaught(l) && m in l.candidates
    ensures CandidatesTaught(PromoteIn(l, m)) && LessonsKept(l, PromoteIn(l, m))
  {
    hide IsTaught;
    forall i | i in l.candidates ensures IsTaught(PromoteIn(l, m), PromoteIn(l, m).candidates[i]) {
      LessonStays(l, PromoteIn(l, m), i);
    }
  }

  // ----- Whole runs

  /** Rules stay as they were promoted, save for being active. */
  ghost predicate RulesStay(a: Shelf, b: Shelf) {
    forall r :: r in a.rules ==>
      r in b.rules && b.rules[r].(active := false) == a.rules[r].(active := false)
        && (b.rules[r].active ==> a.rules[r].active)
  }

  lemma StepKeepsRulesAsTheyAre(l: Ledger, op: Op)
    requires Fresh(l, op)
    ensures RulesStay(l.shelf, Step(l, op).shelf)
  {
    hide ReplyLearn, ReplyDocket, StartCase, Replay, Consent, BuildManifest, NewRule, Promote;
    if op.PromoteCandidate? && Promotes(l, op) {
      PromotionKeepsRules(l.shelf, l.learn.candidates[op.candidate], op);
    }
  }

  lemma PromotionKeepsRules(s: Shelf, c: Candidate, op: Op)
    requires op.PromoteCandidate? && op.rule !in s.rules
    ensures RulesStay(s, Promote(s, c, op.candidate, op.reviewer, op.rule, op.version, op.now))
  {
    hide BuildManifest, NewRule;
  }

  lemma {:induction false} RunKeepsRulesAsTheyAre(l: Ledger, ops: seq<Op>)
    requires FreshRun(l, ops)
    ensures RulesStay(l.shelf, Run(l, ops).shelf)
    decreases |ops|
  {
    if ops != [] {
      hide Step, Fresh;
      StepKeepsRulesAsTheyAre(l, ops[0]);
      RunKeepsRulesAsTheyAre(Step(l, ops[0]), ops[1..]);
    }
  }

  lemma LessonsKeepRulesTaught(l: Ledger, v: Ledger)
    requires RulesTaught(l) && LessonsKept(l.learn, v.learn) && v.shelf.rules == l.shelf.rules
    ensures RulesTaught(v)
  {
  }

  lemma StepKeepsLessons(l: Ledger, op: Op)
    requires CandidatesTaught(l.learn) && Fresh(l, op)
    ensures CandidatesTaught(Step(l, op).learn) && LessonsKept(l.learn, Step(l, op).learn)
  {
    hide CandidatesTaught, LessonsKept, Receive, ReplyDocket, StartCase, Replay, Consent, Promote, Provision;
    LessonsReflexive(l.learn);
    if op.Reply? && Admitted(l, op) {
      ReceiveKeepsTaught(l.learn, SignalOf(l.docket, op), op.correction, CorrectionKeyOf(l.docket, op),
        CorrectionOf(l.docket, op), op.candidate, op.now);
    } else if op.PromoteCandidate? && Promotes(l, op) {
      PromoteInKeepsTaught(l.learn, op.candidate);
    }
  }

  lemma LessonsReflexive(l: Learn)
    ensures LessonsKept(l, l)
  {
  }

  /** The promoted rule says what its candidate says. */
  lemma PromotedSays(l: Ledger, op: Op)
    requires op.PromoteCandidate? && Promotes(l, op)
    ensures var v := Step(l, op);
      && op.rule in v.shelf.rules && v.shelf.rules[op.rule].candidate == op.candidate
      && v.shelf.rules[op.rule].active && v.shelf.rules[op.rule].at == op.now
      && v.shelf.rules[op.rule].reviewer == op.reviewer
      && op.candidate in v.learn.candidates && ComesFrom(v.shelf.rules[op.rule], v.learn.candidates[op.candidate])
      && v.learn.candidates == l.learn.candidates[op.candidate :=
        l.learn.candidates[op.candidate].(status := Status.Promoted)]
      && op.version in v.shelf.versions && v.shelf.versions[op.version].at == op.now
      && forall r :: r in v.shelf.rules && r != op.rule ==> r in l.shelf.rules
  {
    hide BuildManifest;
  }

  lemma PromotionKeepsTaught(l: Ledger, op: Op)
    requires RulesTaught(l) && CandidatesTaught(l.learn) && Fresh(l, op) && op.PromoteCandidate? && Promotes(l, op)
    ensures RulesTaught(Step(l, op))
  {
    var v := Step(l, op);
    PromotedSays(l, op);
    StepKeepsRulesAsTheyAre(l, op);
    StepKeepsLessons(l, op);
    hide Step, CandidatesTaught, Promotes, Fresh;
    forall r | r in v.shelf.rules
      ensures v.shelf.rules[r].candidate in v.learn.candidates
        && ComesFrom(v.shelf.rules[r], v.learn.candidates[v.shelf.rules[r].candidate])
    {
      if r != op.rule {
        assert ComesFrom(l.shelf.rules[r], l.learn.candidates[l.shelf.rules[r].candidate]);
      }
    }
  }

  lemma SameRules(l: Ledger, op: Op)
    requires !(op.PromoteCandidate? && Promotes(l, op))
    ensures Step(l, op).shelf.rules == l.shelf.rules
  {
    hide ReplyLearn, ReplyDocket, StartCase, Replay, Consent;
  }

  lemma StepKeepsTaught(l: Ledger, op: Op)
    requires AllTaught(l) && Fresh(l, op)
    ensures AllTaught(Step(l, op))
  {
    hide Step, CandidatesTaught, RulesTaught, LessonsKept, Fresh;
    StepKeepsLessons(l, op);
    if op.PromoteCandidate? && Promotes(l, op) {
      PromotionKeepsTaught(l, op);
    } else {
      SameRules(l, op);
      LessonsKeepRulesTaught(l, Step(l, op));
    }
  }

  lemma {:induction false} RunKeepsTaught(l: Ledger, ops: seq<Op>)
    requires AllTaught(l) && FreshRun(l, ops)
    ensures AllTaught(Run(l, ops)) && LessonsKept(l.learn, Run(l, ops).learn)
    decreases |ops|
  {
    LessonsReflexive(l.learn);
    if ops != [] {
      var v := Step(l, ops[0]);
      StepKeepsTaught(l, ops[0]);
      StepKeepsLessons(l, ops[0]);
      hide Step, Fresh, CandidatesTaught, RulesTaught;
      RunKeepsTaught(v, ops[1..]);
      LessonsTransitive(l.learn, v.learn, Run(v, ops[1..]).learn);
    }
  }

  lemma LessonsTransitive(a: Learn, b: Learn, c: Learn)
    requires LessonsKept(a, b) && LessonsKept(b, c)
    ensures LessonsKept(a, c)
  {
  }

  /** The rule is the correction made lasting. */
  ghost predicate Lasts(r: Rule, c: Correction) {
    && multiset(r.conditions) == multiset(c.conditions) && c.conditions != []
    && r.action == c.action && c.action != ""
    && r.key.tenant == c.tenant && r.key.workflow == c.workflow && r.key.decisionType == c.decisionType
    && r.scope == if c.scopeHint.None? then CaseScope else c.scopeHint.value
  }

  /** Every rule there is after a run was taught: one stored correction has its conditions, its action and its
   *  scope, for the same decision of the same tenant, and somebody promoted it.
   */
  lemma RulesAreTaught(ops: seq<Op>, r: Id)
    requires FreshRun(EMPTY, ops) && r in Run(EMPTY, ops).shelf.rules
    ensures var l := Run(EMPTY, ops);
      && l.shelf.rules[r].reviewer != "" && l.shelf.rules[r].key.hash == Map(Encode, l.shelf.rules[r].conditions)
      && exists x :: x in l.learn.corrections && Lasts(l.shelf.rules[r], l.learn.corrections[x])
  {
    RunKeepsTaught(EMPTY, ops);
    var l := Run(EMPTY, ops);
    hide Run, FreshRun;
    var c := l.learn.candidates[l.shelf.rules[r].candidate];
    assert IsTaught(l.learn, c);
    assert Lasts(l.shelf.rules[r], l.learn.corrections[c.corrections[0]]);
  }

  // ----- From one correction to the decision of later cases

  /** A recorded correction is stored in the operator's words, for the case and decision of its packet. */
  lemma ReplyIsStored(l: Ledger, op: Op)
    requires Inv(l) && op.Reply? && op.button != Approve && Fresh(l, op) && Recorded(l, op)
    ensures op.correction in Step(l, op).learn.corrections
    ensures var c, p := Step(l, op).learn.corrections[op.correction], l.docket.packets[op.packet];
      && c.conditions == op.conditions && c.action == op.action && c.scopeHint == op.scopeHint && c.button == op.button
      && c.tenant == p.tenant && c.caseRun == p.caseRun && c.point == p.point && c.packet == op.packet
      && p.caseRun in l.docket.runs && c.workflow == l.docket.runs[p.caseRun].workflow
      && c.decisionType == WorkflowDecision(c.workflow).0
  {
    FiledUnderItsCase(l, op);
    hide Inv, Merge, WorkflowFromInput, WorkflowDecision, KeyOf;
    MergeKeepsLessons(Store(MarkSeen(l.learn, SignalOf(l.docket, op)), op.correction, CorrectionKeyOf(l.docket, op),
      CorrectionOf(l.docket, op)), op.correction, CorrectionOf(l.docket, op), op.candidate, op.now);
  }

  /** A candidate a correction opened has that correction as its oldest evidence. */
  lemma OpenedByReply(l: Ledger, op: Op)
    requires op.Reply? && Fresh(l, op) && op.candidate in Step(l, op).learn.candidates
    ensures Step(l, op).learn.candidates[op.candidate].corrections == [op.correction] && Recorded(l, op)
      && op.button != Approve
  {
    hide KeyOf, CanonicalizeConditions, StatusFor, ReplyDocket;
  }

  /** In a state in step, with no other rule applying, a case is decided by the rule exactly when its payload
   *  meets the rule's conditions; else by the agent's allowed proposal, else by default.
   */
  lemma OneRuleDecides(e: Ledger, r: Id, start: Op)
    requires Inv(e) && start.Start? && Fresh(e, start)
    requires StartCheck(e.shelf, start.tenant, start.workflow, start.mode, start.payload).None?
    requires IsSynced(e.shelf, Slot(start.tenant, start.workflow))
    requires r in e.shelf.rules && e.shelf.rules[r].active && e.shelf.rules[r].key.tenant == start.tenant
    requires e.shelf.rules[r].key.workflow == start.workflow
    requires e.shelf.rules[r].key.decisionType == WorkflowDecision(start.workflow).0
    requires forall i :: Applies(e.shelf, Slot(start.tenant, start.workflow), i, start.payload) ==> i == r
    ensures start.ids.point in Step(e, start).docket.points
    ensures Step(e, start).docket.points[start.ids.point].action ==
      if MeetsAll(start.payload, e.shelf.rules[r].conditions) then e.shelf.rules[r].action
      else if start.agent.Some? && start.agent.value in AllowedActions(start.workflow) then start.agent.value
      else WorkflowDecision(start.workflow).1
  {
    var slot := Slot(start.tenant, start.workflow);
    MatchesMeets(start.payload, e.shelf.rules[r].conditions);
    assert Applies(e.shelf, slot, r, start.payload) <==> Matches(start.payload, e.shelf.rules[r].conditions);
    DecideTakesBest(e.shelf, slot, start.payload);
    hide LearnInv, DocketInv, ShelfInv, TenantsKnown, Applies, Decide, BuildManifest, Matches, MeetsAll, AllowedActions,
      WorkflowDecision, StartCheck;
    var (action, matched) := Decide(start.workflow, start.payload, BuildManifest(e.shelf, slot));
    assert matched <==> Applies(e.shelf, slot, r, start.payload);
    hide IsBest;
    StartDecides(e, start);
  }

  lemma StartDecides(e: Ledger, start: Op)
    requires start.Start? && StartCheck(e.shelf, start.tenant, start.workflow, start.mode, start.payload).None?
    requires IsSynced(e.shelf, Slot(start.tenant, start.workflow))
    ensures start.ids.point in Step(e, start).docket.points
    ensures var (action, matched) :=
        Decide(start.workflow, start.payload, BuildManifest(e.shelf, Slot(start.tenant, start.workflow)));
      Step(e, start).docket.points[start.ids.point].action ==
        if !matched && start.agent.Some? && start.agent.value in AllowedActions(start.workflow) then start.agent.value
        else action
  {
    hide Decide, BuildManifest, AllowedActions, WorkflowDecision;
  }

  /** The life of a lesson: a reply opens a candidate, which after any run is promoted to a rule that, after any
   *  further run in which its slot does not lose step, is still active when a case starts in its workflow.
   */
  datatype Lesson = Lesson(reply: Op, before: seq<Op>, promote: Op, after: seq<Op>)

  ghost function Corrected(l: Ledger, x: Lesson): Ledger {
    Run(Step(l, x.reply), x.before)
  }

  ghost function AfterLesson(l: Ledger, x: Lesson): Ledger {
    Run(Step(Corrected(l, x), x.promote), x.after)
  }

  /** The slot the operator's case was in. */
  function SlotOf(l: Ledger, reply: Op): Slot
    requires reply.Reply? && Admitted(l, reply)
  {
    var packet := l.docket.packets[reply.packet];
    Slot(packet.tenant, l.docket.runs[packet.caseRun].workflow)
  }

  ghost predicate IsLesson(l: Ledger, x: Lesson) {
    && x.reply.Reply? && Fresh(l, x.reply) && x.reply.candidate in Step(l, x.reply).learn.candidates
    && Recorded(l, x.reply) && x.reply.button != Approve
    && FreshRun(Step(l, x.reply), x.before)
    && x.promote.PromoteCandidate? && x.promote.candidate == x.reply.candidate
    && Fresh(Corrected(l, x), x.promote) && Promotes(Corrected(l, x), x.promote)
    && FreshRun(Step(Corrected(l, x), x.promote), x.after)
    && Quiet(Step(Corrected(l, x), x.promote), x.after, SlotOf(l, x.reply))
  }

  lemma CandidateIsLesson(l: Ledger, x: Lesson)
    requires Inv(l) && AllTaught(l) && IsLesson(l, x)
    ensures Inv(Corrected(l, x)) && AllTaught(Corrected(l, x))
    ensures x.reply.candidate in Corrected(l, x).learn.candidates
    ensures var c := Corrected(l, x).learn.candidates[x.reply.candidate];
      && multiset(c.conditions) == multiset(x.reply.conditions) && c.action == x.reply.action
      && Slot(c.key.tenant, c.key.workflow) == SlotOf(l, x.reply)
      && c.key.decisionType == WorkflowDecision(c.key.workflow).0
  {
    var v := Step(l, x.reply);
    ReplyIsStored(l, x.reply);
    OpenedByReply(l, x.reply);
    StepKeepsInv(l, x.reply);
    StepKeepsTaught(l, x.reply);
    hide Step, Run, FreshRun, Fresh, Recorded, Inv, WorkflowDecision, RulesTaught;
    RunKeepsInv(v, x.before);
    RunKeepsTaught(v, x.before);
    assert IsTaught(v.learn, v.learn.candidates[x.reply.candidate]);
  }

  lemma RuleIsLesson(l: Ledger, x: Lesson)
    requires Inv(l) && AllTaught(l) && IsLesson(l, x)
    ensures var e := AfterLesson(l, x);
      && Inv(e) && IsSynced(e.shelf, SlotOf(l, x.reply))
      && x.promote.rule in e.shelf.rules
      && var r := e.shelf.rules[x.promote.rule];
        multiset(r.conditions) == multiset(x.reply.conditions) && r.action == x.reply.action
        && Slot(r.key.tenant, r.key.workflow) == SlotOf(l, x.reply)
        && r.key.decisionType == WorkflowDecision(r.key.workflow).0
  {
    var p := Corrected(l, x);
    var v := Step(p, x.promote);
    CandidateIsLesson(l, x);
    PromotedSays(p, x.promote);
    StepKeepsLessons(p, x.promote);
    StepKeepsInv(p, x.promote);
    OwnPromotionCatchesUp(p, x.promote, SlotOf(l, x.reply));
    hide Step, Run, FreshRun, Fresh, Recorded, Inv, WorkflowDecision, AllTaught, Corrected, IsSynced, Promotes;
    RunInStep(v, x.after, SlotOf(l, x.reply));
    RunKeepsInv(v, x.after);
    RunKeepsRulesAsTheyAre(v, x.after);
  }

  /** The operator taught action A under conditions C; from then on, wherever no other rule applies, a case of the
   *  workflow is decided A exactly when its payload meets C, and otherwise as if nothing had been taught.
   */
  lemma LessonDecides(l: Ledger, x: Lesson, start: Op)
    requires Inv(l) && AllTaught(l) && IsLesson(l, x)
    requires var e, slot := AfterLesson(l, x), SlotOf(l, x.reply);
      && x.promote.rule in e.shelf.rules && e.shelf.rules[x.promote.rule].active
      && start.Start? && Slot(start.tenant, start.workflow) == slot && Fresh(e, start)
      && StartCheck(e.shelf, start.tenant, start.workflow, start.mode, start.payload).None?
      && forall i :: Applies(e.shelf, slot, i, start.payload) ==> i == x.promote.rule
    ensures var v := Step(AfterLesson(l, x), start);
      && start.ids.point in v.docket.points
      && v.docket.points[start.ids.point].action ==
        if MeetsAll(start.payload, x.reply.conditions) then x.reply.action
        else if start.agent.Some? && start.agent.value in AllowedActions(start.workflow) then start.agent.value
        else WorkflowDecision(start.workflow).1
  {
    RuleIsLesson(l, x);
    hide Step, Inv, AllTaught, IsLesson, AfterLesson, Fresh, Applies, Meets, AllowedActions, WorkflowDecision,
      StartCheck, IsSynced;
    var e := AfterLesson(l, x);
    SameElements(e.shelf.rules[x.promote.rule].conditions, x.reply.conditions);
    OneRuleDecides(e, x.promote.rule, start);
  }

  lemma SameElements(a: seq<Condition>, b: seq<Condition>)
    requires multiset(a) == multiset(b)
    ensures forall c :: c in a <==> c in b
  {
    forall c ensures c in a <==> c in b {
      assert c in multiset(a) <==> c in multiset(b);
    }
  }

  /** Values with the same JSON text print alike. */
  ghost predicate JsonTells(a: seq<Condition>, b: seq<Condition>) {
    forall p, q :: p in a && q in b && p.value.json == q.value.json ==> p.value.printed == q.value.printed
  }

  lemma EncodedMeansTheSame(a: seq<Condition>, b: seq<Condition>, payload: Payload)
    requires Map(Encode, a) == Map(Encode, CanonicalizeConditions(b)) && JsonTells(a, b)
    ensures MeetsAll(payload, a) <==> MeetsAll(payload, b)
  {
    var sorted := CanonicalizeConditions(b);
    SameElements(b, sorted);
    forall i | 0 <= i < |a| ensures Meets(payload, a[i]) <==> Meets(payload, sorted[i]) {
      assert Map(Encode, a)[i] == Encode(a[i]) && Map(Encode, sorted)[i] == Encode(sorted[i]);
      assert sorted[i] in b;
    }
    hide Meets;
    assert |a| == |Map(Encode, a)| == |sorted|;
  }

  /** Not only the correction that opened a candidate: every piece of its evidence means what it means. */
  lemma EvidenceMeansTheSame(l: Ledger, m: Id, x: Id, payload: Payload)
    requires Inv(l) && AllTaught(l) && m in l.learn.candidates && x in l.learn.candidates[m].corrections
    ensures x in l.learn.corrections && l.learn.corrections[x].action == l.learn.candidates[m].action
    ensures JsonTells(l.learn.candidates[m].conditions, l.learn.corrections[x].conditions) ==>
      MeetsAll(payload, l.learn.candidates[m].conditions) == MeetsAll(payload, l.learn.corrections[x].conditions)
  {
    var c := l.learn.candidates[m];
    assert SourcesAgree(l.learn, c) && IsTaught(l.learn, c);
    hide Inv, AllTaught, JsonTells;
    if JsonTells(c.conditions, l.learn.corrections[x].conditions) {
      EncodedMeansTheSame(c.conditions, l.learn.corrections[x].conditions, payload);
    }
  }

  // ----- What one reply does to the candidates

  /** A recorded correction that does not parse teaches nothing. */
  lemma UnparsedTeachesNothing(l: Ledger, op: Op)
    requires op.Reply? && Recorded(l, op) && op.button != Approve && (op.conditions == [] || op.action == "")
    ensures Step(l, op).learn.candidates == l.learn.candidates && Step(l, op).shelf == l.shelf
  {
    hide KeyOf;
  }

  /** One candidate gains one piece of evidence, the newest, seen now; nothing else gains any. */
  ghost predicate TeachesOne(a: map<Id, Candidate>, b: map<Id, Candidate>, m: Id, id: Id, now: int) {
    && m in b && b[m].lastSeenAt == now
    && b[m].corrections == (if m in a then a[m].corrections else []) + [id]
    && b[m].evidence == (if m in a then a[m].evidence else 0) + 1
    && (m !in a ==> b[m].createdAt == now)
    && (m in a && a[m].status == UnderReview && b[m].status == UnderReview ==>
      b[m].underReviewAt == a[m].underReviewAt)
    && (b[m].status == UnderReview && !(m in a && a[m].status == UnderReview) ==> b[m].underReviewAt == Some(now))
    && (forall i :: i in b && i != m ==>
      i in a && b[i].corrections == a[i].corrections && b[i].evidence == a[i].evidence
        && b[i].lastSeenAt == a[i].lastSeenAt && b[i].underReviewAt == a[i].underReviewAt)
  }

  lemma MergeTeachesOne(l: Learn, id: Id, c: Correction, newId: Id, now: int) returns (m: Id)
    requires Parsed(c) && newId !in l.candidates
    requires forall i :: i in l.candidates ==> id !in l.candidates[i].corrections
    ensures var v := Merge(l, id, c, newId, now).candidates;
      TeachesOne(l.candidates, v, m, id, now) && v[m].action == c.action && (m in l.candidates || m == newId)
  {
    hide KeyOf, StatusFor;
    m := newId;
    if HasMatch(l.candidates, KeyOf(c), c.action) {
      m := TheMatch(l.candidates, KeyOf(c), c.action);
    }
  }

  lemma NewIsNoEvidence(l: Learn, id: Id)
    requires LearnInv(l) && id !in l.corrections
    ensures forall i :: i in l.candidates ==> id !in l.candidates[i].corrections
  {
    forall i | i in l.candidates ensures id !in l.candidates[i].corrections {
      assert SourcesAgree(l, l.candidates[i]);
    }
  }

  /** A recorded correction that parses is the newest evidence of exactly one candidate, which says its action
   *  and is new or has one piece of evidence more.
   */
  lemma ParsedTeachesOne(l: Ledger, op: Op) returns (m: Id)
    requires Inv(l) && op.Reply? && Recorded(l, op) && op.button != Approve && Fresh(l, op)
    requires op.conditions != [] && op.action != ""
    ensures var v := Step(l, op).learn.candidates;
      && TeachesOne(l.learn.candidates, v, m, op.correction, op.now) && v[m].action == op.action
      && (m in l.learn.candidates || m == op.candidate)
  {
    NewIsNoEvidence(l.learn, op.correction);
    var c := CorrectionOf(l.docket, op);
    hide Inv, LearnInv, Merge, TeachesOne, ReplyDocket, WorkflowFromInput;
    m := MergeTeachesOne(Store(MarkSeen(l.learn, SignalOf(l.docket, op)), op.correction,
      CorrectionKeyOf(l.docket, op), c), op.correction, c, op.candidate, op.now);
  }
}
