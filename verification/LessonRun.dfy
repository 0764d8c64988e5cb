/** One lesson from the empty ledger to the cases it decides: corrected once, promoted, then asked again. */
module LessonRun {
  import opened Cases
  import opened Conditions
  import opened Confidence
  import opened CorrectionLoop
  import opened FailingInputs
  import opened InStep
  import opened Learning
  import opened Rules
  import opened Taught

  /** The operator's correction of the first case: hold. */
  function Hold(number: string): Op {
    FailingInputs.Correct(number, "m", "hold", Some(TenantScope), 0, 0)
  }

  /** A later case of A, from the region given. */
  function CaseFrom(region: string): Op {
    Start("A", WORKFLOW, "sandbox", PAYLOAD["region" := Text(region)], None, StartIds(1, 1, 2, 3, 1), 0)
  }

  lemma HoldIsRecorded(s: Ledger, number: string)
    requires CaseOpen(s, number)
    ensures Recorded(s, Hold(number)) && Fresh(s, Hold(number)) && AllTaught(s)
    ensures Step(s, Hold(number)).docket.artifacts == s.docket.artifacts
      && Step(s, Hold(number)).docket.runs.Keys == s.docket.runs.Keys
      && Step(s, Hold(number)).docket.points.Keys == s.docket.points.Keys
  {
    hide ReplyLearn, WorkflowFromInput;
    ReplyMarks(s, Hold(number));
  }

  lemma TaughtCandidate(s: Ledger, op: Op)
    requires Inv(s) && AllTaught(s) && op.Reply? && Fresh(s, op) && Recorded(s, op)
    requires op.candidate in Step(s, op).learn.candidates
    ensures multiset(Step(s, op).learn.candidates[op.candidate].conditions) == multiset(op.conditions)
  {
    hide Step, Inv, Fresh, Recorded, RulesTaught;
    OpenedByReply(s, op);
    ReplyIsStored(s, op);
    StepKeepsTaught(s, op);
    assert IsTaught(Step(s, op).learn, Step(s, op).learn.candidates[op.candidate]);
  }

  lemma PromotedCondition(r: Ledger, op: Op)
    requires op.PromoteCandidate? && Promotes(r, op)
    ensures op.rule in Step(r, op).shelf.rules
      && Step(r, op).shelf.rules[op.rule].conditions == r.learn.candidates[op.candidate].conditions
  {
    hide Step;
    PromotedSays(r, op);
  }

  /** The rule has the operator's one condition. */
  lemma RuleHasCondition(s: Ledger, number: string, reviewer: string)
    requires CaseOpen(s, number) && Sound(s) && 6 !in s.shelf.versions && reviewer != ""
    ensures var v := Step(Step(s, Hold(number)), PromoteFirst(reviewer));
      OneRule(v, "hold", TenantScope) && multiset(v.shelf.rules[0].conditions) == multiset([CONDITION])
  {
    hide Step, Inv, SlotsFilled, IsSynced, Recorded, Fresh, AllTaught, CaseOpen, OneRule, CanonicalizeConditions;
    FirstKeeps(s, number, "hold", TenantScope);
    AfterFirst(s, number, "hold", TenantScope);
    HoldIsRecorded(s, number);
    TaughtCandidate(s, Hold(number));
    var r := Step(s, Hold(number));
    AfterPromotion(r, "hold", TenantScope, reviewer);
    PromotedCondition(r, PromoteFirst(reviewer));
  }

  lemma StillInv(l: Ledger)
    requires Sound(l)
    ensures Inv(l)
  {
  }

  lemma Caught(r: Ledger, reviewer: string)
    requires Sound(r) && OneCandidate(r, "hold", TenantScope, Status.Candidate) && reviewer != ""
    requires Fresh(r, PromoteFirst(reviewer))
    ensures IsSynced(Step(r, PromoteFirst(reviewer)).shelf, Slot("A", WORKFLOW))
  {
    hide Step, Inv, IsSynced, SlotsFilled;
    OwnPromotionCatchesUp(r, PromoteFirst(reviewer), Slot("A", WORKFLOW));
  }

  lemma IdsAreFree(s: Ledger, v: Ledger, number: string, region: string)
    requires CaseOpen(s, number)
    requires v.docket.artifacts == s.docket.artifacts && v.docket.packets == s.docket.packets
    requires v.docket.runs.Keys == s.docket.runs.Keys && v.docket.points.Keys == s.docket.points.Keys
    ensures Fresh(v, CaseFrom(region))
  {
    var keys := s.docket.artifacts.Keys;
    assert 2 !in keys && 3 !in keys && 1 !in s.docket.runs.Keys && 1 !in s.docket.points.Keys;
    assert 1 !in s.docket.packets.Keys;
    hide CaseOpen;
  }

  lemma CaseCanStart(v: Ledger, region: string)
    requires Sound(v) && "A" in v.shelf.verticals
    ensures StartCheck(v.shelf, "A", WORKFLOW, "sandbox", CaseFrom(region).payload).None?
  {
    SlotIsActive(v);
    hide Inv, Sound, SlotsFilled, IsSynced;
    assert IsTrue(PAYLOAD, "sandbox");
    assert IsTrue(PAYLOAD["region" := Text(region)], "sandbox") by {
      assert "region" != "sandbox";
    }
  }

  /** After the lesson the next case can be started, on a version in step with the rule. */
  lemma ReadyToAsk(s: Ledger, number: string, reviewer: string, region: string)
    requires CaseOpen(s, number) && Sound(s) && 6 !in s.shelf.versions && reviewer != ""
    ensures var v := Step(Step(s, Hold(number)), PromoteFirst(reviewer));
      && Inv(v) && Fresh(v, CaseFrom(region)) && IsSynced(v.shelf, Slot("A", WORKFLOW))
      && StartCheck(v.shelf, "A", WORKFLOW, "sandbox", CaseFrom(region).payload).None?
  {
    var r := Step(s, Hold(number));
    var v := Step(r, PromoteFirst(reviewer));
    KnowsA(s, number);
    hide Step, Sound, CaseOpen, OneCandidate, OneRule, IsSynced, PromoteFirst, Fresh, Recorded, AllTaught, StartCheck;
    FirstKeeps(s, number, "hold", TenantScope);
    AfterFirst(s, number, "hold", TenantScope);
    HoldIsRecorded(s, number);
    AfterPromotion(r, "hold", TenantScope, reviewer);
    StepKeepsSound(r, PromoteFirst(reviewer));
    Caught(r, reviewer);
    StillInv(v);
    IdsAreFree(s, v, number, region);
    CaseCanStart(v, region);
  }

  lemma KnowsA(s: Ledger, number: string)
    requires CaseOpen(s, number)
    ensures "A" in s.shelf.verticals
  {
  }

  /** The operator held a case from the north; now cases from the north are held, others get a draft reply. */
  lemma NorthIsHeld(number: string, reviewer: string, region: string)
    requires number != "" && reviewer != ""
    ensures
      var l := Run(EMPTY, [ProvisionA(number), START, Hold(number), PromoteFirst(reviewer), CaseFrom(region)]);
      1 in l.docket.points && l.docket.points[1].action == if region == "north" then "hold" else "draft_reply"
  {
    hide Step, Inv, Sound, Fresh, CaseOpen, Run, IsSynced, ProvisionA, FailingInputs.Correct, PromoteFirst,
      OneCandidate, StartCheck;
    CaseOfA(number);
    var s := Step(Step(EMPTY, ProvisionA(number)), START);
    RuleHasCondition(s, number, reviewer);
    ReadyToAsk(s, number, reviewer, region);
    var v := Step(Step(s, Hold(number)), PromoteFirst(reviewer));
    NorthMeets(v.shelf.rules[0].conditions, region);
    RuleOfA(v);
    hide OneRule;
    OneRuleDecides(v, 0, CaseFrom(region));
    RunFive(EMPTY, ProvisionA(number), START, Hold(number), PromoteFirst(reviewer), CaseFrom(region));
  }

  lemma RuleOfA(v: Ledger)
    requires OneRule(v, "hold", TenantScope)
    ensures v.shelf.rules.Keys == {0} && v.shelf.rules[0].active && v.shelf.rules[0].action == "hold"
    ensures v.shelf.rules[0].key.tenant == "A" && v.shelf.rules[0].key.workflow == WORKFLOW
      && v.shelf.rules[0].key.decisionType == WorkflowDecision(WORKFLOW).0
  {
  }

  lemma NorthMeets(conditions: seq<Condition>, region: string)
    requires multiset(conditions) == multiset([CONDITION])
    ensures MeetsAll(CaseFrom(region).payload, conditions) <==> region == "north"
  {
    SameElements(conditions, [CONDITION]);
    var payload := CaseFrom(region).payload;
    assert CONDITION in [CONDITION];
    OperatorsMean(PAYLOAD, "region", "", Text(region), CONDITION.value);
    MatchesMeets(payload, [CONDITION]);
  }
}
