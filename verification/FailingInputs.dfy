/** Runs from the empty ledger on which a law stops: what the code does there, shown on inputs.
 *  Two tenants are provisioned; one has a live case; the other may or may not share its number.
 */
module FailingInputs {
  import opened Bindings
  import opened Cases
  import opened Conditions
  import opened Confidence
  import opened CorrectionLoop
  import opened InStep
  import opened Isolation
  import opened Learning
  import opened Rules
  import opened Strings
  import opened Sorting

  const WORKFLOW := "enquiry_triage"

  const CASE_IDS := StartIds(0, 0, 0, 1, 0)

  const PAYLOAD: Payload := map["sandbox" := Value(false, "true", "true")]

  const CONDITION := Condition("region", "=", Value(true, "north", "\"north\""))

  /** Provisioning of tenants A and B. */
  function ProvisionA(number: string): Op {
    ProvisionTenant("A", "A", "trade", number, "op", 0, 1, 2, 0)
  }

  function ProvisionB(number: string): Op {
    ProvisionTenant("B", "B", "trade", number, "op", 3, 4, 5, 0)
  }

  const START := Start("A", WORKFLOW, "sandbox", PAYLOAD, None, CASE_IDS, 0)

  /** A correction of the case of A, coming in on a number. */
  function Correct(number: string, raw: string, action: string, scope: Option<Scope>, correction: Id,
      candidate: Id): Op {
    Reply(Telegram(number), 0, WrongAction, raw, raw, [CONDITION], action, scope, correction, candidate, 0)
  }

  // ----- The shared set-up

  /** What holds of every run, and that all is in step while there are no rules. */
  ghost predicate Sound(l: Ledger) {
    && Inv(l) && SlotsFilled(l.shelf)
    && (l.shelf.rules == map[] ==> forall slot: Slot :: IsSynced(l.shelf, slot))
  }

  lemma EmptySound()
    ensures Sound(EMPTY)
  {
    EmptyInv();
  }

  lemma StepKeepsSound(l: Ledger, op: Op)
    requires Sound(l) && Fresh(l, op)
    ensures Sound(Step(l, op))
  {
    hide Inv, Fresh, SlotsFilled, IsSynced, Step;
    var v := Step(l, op);
    StepKeepsInv(l, op);
    StepKeepsSlots(l, op);
    if v.shelf.rules == map[] {
      StepKeepsRules(l, op);
      forall slot: Slot ensures IsSynced(v.shelf, slot) {
        WithoutForeignDefaults(l, op, slot);
        StepInStep(l, op, slot);
      }
    }
  }

  /** A is provisioned and has a live case, so one packet is open; nothing has been learnt. */
  ghost predicate CaseOpen(l: Ledger, number: string) {
    && "A" in l.shelf.verticals
    && Telegram(number) in l.bindings && l.bindings[Telegram(number)].tenant == "A"
    && l.docket.packets.Keys == {0} && l.docket.packets[0] == ReviewPacket("A", 0, 0, PACKET_LIFETIME)
    && l.docket.runs.Keys == {0} && l.docket.runs[0].tenant == "A"
    && l.docket.points.Keys == {0} && l.docket.points[0].tenant == "A"
    && l.docket.artifacts.Keys == {0, 1} && WorkflowFromInput(l.docket.points[0].input) == WORKFLOW
    && l.docket.points[0].decisionType == WorkflowDecision(WORKFLOW).0
    && l.learn == EMPTY_LEARN && l.shelf.rules == map[] && l.shelf.versions.Keys <= {0, 1, 2, 3, 4, 5}
  }

  /** A provisioned tenant, nothing else. */
  ghost predicate OnlyProvisioned(l: Ledger) {
    && l.learn == EMPTY_LEARN && l.docket == EMPTY_DOCKET && l.shelf.rules == map[] && l.shelf.ruleLog == []
  }

  lemma Trims()
    ensures TrimSpace("A") == "A" && TrimSpace("B") == "B" && TrimSpace("trade") == "trade"
  {
  }

  lemma ProvisionFacts(l: Ledger, op: Op)
    requires op.ProvisionTenant? && Provisions(l, op)
    ensures var v := Step(l, op);
      && v.learn == l.learn && v.docket == l.docket && v.shelf.rules == l.shelf.rules
        && v.shelf.ruleLog == l.shelf.ruleLog
      && v.shelf.verticals.Keys == l.shelf.verticals.Keys + {op.tenant}
      && v.shelf.versions.Keys == l.shelf.versions.Keys + {op.quote, op.triage, op.invoice}
      && v.bindings == Claim(l.bindings, op.tenant, op.number)
  {
    hide TrimSpace, Claim;
  }

  lemma AfterA(number: string)
    requires number != ""
    ensures var l := Step(EMPTY, ProvisionA(number));
      && Fresh(EMPTY, ProvisionA(number)) && Sound(l) && OnlyProvisioned(l)
      && l.shelf.verticals.Keys == {"A"} && l.shelf.versions.Keys == {0, 1, 2}
      && l.bindings == Claim(map[], "A", number)
  {
    Trims();
    EmptySound();
    hide Sound, Step, Claim, TrimSpace;
    ProvisionFacts(EMPTY, ProvisionA(number));
    StepKeepsSound(EMPTY, ProvisionA(number));
  }

  lemma AfterB(l: Ledger, number: string)
    requires number != "" && Sound(l) && "B" !in l.shelf.verticals
    requires 3 !in l.shelf.versions && 4 !in l.shelf.versions && 5 !in l.shelf.versions
    ensures var v := Step(l, ProvisionB(number));
      && Fresh(l, ProvisionB(number)) && Sound(v)
      && v.learn == l.learn && v.docket == l.docket && v.shelf.rules == l.shelf.rules
        && v.shelf.ruleLog == l.shelf.ruleLog
      && v.shelf.verticals.Keys == l.shelf.verticals.Keys + {"B"}
        && v.shelf.versions.Keys == l.shelf.versions.Keys + {3, 4, 5}
      && v.bindings == Claim(l.bindings, "B", number)
  {
    Trims();
    hide Sound, Step, Claim, TrimSpace;
    ProvisionFacts(l, ProvisionB(number));
    StepKeepsSound(l, ProvisionB(number));
  }

  lemma StartFacts(l: Ledger, number: string)
    requires StartCheck(l.shelf, "A", WORKFLOW, "sandbox", PAYLOAD).None? && OnlyProvisioned(l)
    requires "A" in l.shelf.verticals && l.shelf.versions.Keys <= {0, 1, 2, 3, 4, 5}
    requires Telegram(number) in l.bindings && l.bindings[Telegram(number)].tenant == "A"
    ensures var v := Step(l, START);
      Fresh(l, START) && CaseOpen(v, number) && v.shelf == l.shelf && v.bindings == l.bindings
  {
    hide ProposedAction, StartCheck;
  }

  lemma AfterStart(l: Ledger, number: string)
    requires Sound(l) && OnlyProvisioned(l) && "A" in l.shelf.verticals
    requires Telegram(number) in l.bindings && l.bindings[Telegram(number)].tenant == "A"
    requires l.shelf.versions.Keys <= {0, 1, 2, 3, 4, 5}
    ensures var v := Step(l, START);
      && Fresh(l, START) && Sound(v) && CaseOpen(v, number)
      && v.shelf == l.shelf && v.bindings == l.bindings
  {
    SlotIsActive(l);
    assert StartCheck(l.shelf, "A", WORKFLOW, "sandbox", PAYLOAD).None? by {
      assert IsTrue(PAYLOAD, "sandbox");
    }
    hide Sound, StartCheck, Step, OnlyProvisioned, CaseOpen;
    StartFacts(l, number);
    StepKeepsSound(l, START);
  }

  lemma SlotIsActive(l: Ledger)
    requires Sound(l) && "A" in l.shelf.verticals
    ensures Slot("A", WORKFLOW) in l.shelf.activeVersion
      && l.shelf.activeVersion[Slot("A", WORKFLOW)] in l.shelf.versions
  {
    ActiveVersionExists(l.shelf, "A", WORKFLOW);
  }

  lemma ClaimBinds(b: Table, tenant: string, number: string)
    ensures Telegram(number) in Claim(b, tenant, number) && Claim(b, tenant, number)[Telegram(number)].tenant == tenant
    ensures forall p :: p in b && p.number != number ==>
      p in Claim(b, tenant, number) && Claim(b, tenant, number)[p] == b[p]
  {
  }

  /** A alone, with its case. */
  lemma CaseOfA(number: string)
    requires number != ""
    ensures var s := Step(Step(EMPTY, ProvisionA(number)), START);
      && Sound(s) && CaseOpen(s, number)
      && s.shelf.verticals.Keys == {"A"} && s.shelf.versions.Keys == {0, 1, 2}
  {
    AfterA(number);
    ClaimBinds(map[], "A", number);
    hide Sound, Fresh, Step, Claim, CaseOpen, OnlyProvisioned;
    AfterStart(Step(EMPTY, ProvisionA(number)), number);
  }

  /** A with its case, beside B with another number. */
  lemma CaseOfABesideB(numberA: string, numberB: string)
    requires numberA != "" && numberB != "" && numberA != numberB
    ensures var s := Step(Step(Step(EMPTY, ProvisionA(numberA)), ProvisionB(numberB)), START);
      && Sound(s) && CaseOpen(s, numberA)
      && "B" in s.shelf.verticals && s.shelf.versions.Keys == {0, 1, 2, 3, 4, 5}
  {
    hide Sound, Fresh, Step, Claim, CaseOpen, ProvisionA, ProvisionB;
    var a := Step(EMPTY, ProvisionA(numberA));
    var b := Step(a, ProvisionB(numberB));
    AfterA(numberA);
    ClaimBinds(map[], "A", numberA);
    ClaimBinds(a.bindings, "B", numberB);
    AfterB(a, numberB);
    assert b.shelf.versions.Keys == {0, 1, 2, 3, 4, 5};
    AfterStart(b, numberA);
  }

  // ----- A number taken over

  lemma ReplyIsFiled(l: Ledger, number: string)
    requires CaseOpen(l, number)
    ensures var op := Correct(number, "m", "hold", None, 0, 0);
      Recorded(l, op) && 0 in Step(l, op).learn.corrections
  {
    hide ReplyDocket, CanonicalizeConditions;
  }

  /** Provisioning B with the number of A takes the reply of A's operator away. */
  lemma TakenOver(s: Ledger, number: string)
    requires number != "" && Sound(s) && CaseOpen(s, number)
    requires s.shelf.verticals.Keys == {"A"} && s.shelf.versions.Keys == {0, 1, 2}
    ensures TakesNumber(s, ProvisionB(number), "A")
    ensures var b := Step(s, ProvisionB(number));
      b.learn == EMPTY_LEARN && Step(b, Correct(number, "m", "hold", None, 0, 0)) == b
  {
    Trims();
    hide Sound, Step, Claim, TrimSpace;
    AfterB(s, number);
    ClaimBinds(s.bindings, "B", number);
    IgnoredReply(Step(s, ProvisionB(number)), Correct(number, "m", "hold", None, 0, 0));
  }

  /** The operator of A answers the packet of A, but the number is B's by now: nothing is filed, where A
   *  alone would have had its correction.
   */
  lemma SharedNumberLosesReply(number: string)
    requires number != ""
    ensures var reply := Correct(number, "m", "hold", None, 0, 0);
      && Run(EMPTY, [ProvisionA(number), START, ProvisionB(number), reply]).learn == EMPTY_LEARN
      && 0 in Run(EMPTY, [ProvisionA(number), START, reply]).learn.corrections
      && TakesNumber(Run(EMPTY, [ProvisionA(number), START]), ProvisionB(number), "A")
  {
    hide Sound, Step, CaseOpen, Run, TakesNumber;
    var reply := Correct(number, "m", "hold", None, 0, 0);
    CaseOfA(number);
    var s := Step(Step(EMPTY, ProvisionA(number)), START);
    ReplyIsFiled(s, number);
    TakenOver(s, number);
    RunTwo(EMPTY, ProvisionA(number), START);
    RunThree(EMPTY, ProvisionA(number), START, reply);
    RunFour(EMPTY, ProvisionA(number), START, ProvisionB(number), reply);
  }

  lemma IgnoredReply(l: Ledger, op: Op)
    requires op.Reply? && !Admitted(l, op)
    ensures Step(l, op) == l
  {
  }

  lemma RunTwo(l: Ledger, a: Op, b: Op)
    ensures Run(l, [a, b]) == Step(Step(l, a), b)
  {
    hide Step;
    assert [a, b][1..] == [b];
    assert Run(Step(l, a), [b]) == Run(Step(Step(l, a), b), [b][1..]);
  }

  lemma RunThree(l: Ledger, a: Op, b: Op, c: Op)
    ensures Run(l, [a, b, c]) == Step(Step(Step(l, a), b), c)
  {
    hide Step;
    assert [a, b, c][1..] == [b, c];
    RunTwo(Step(l, a), b, c);
  }

  lemma RunFour(l: Ledger, a: Op, b: Op, c: Op, d: Op)
    ensures Run(l, [a, b, c, d]) == Step(Step(Step(Step(l, a), b), c), d)
  {
    hide Step;
    assert [a, b, c, d][1..] == [b, c, d];
    RunThree(Step(l, a), b, c, d);
  }

  lemma RunFive(l: Ledger, a: Op, b: Op, c: Op, d: Op, e: Op)
    ensures Run(l, [a, b, c, d, e]) == Step(Step(Step(Step(Step(l, a), b), c), d), e)
  {
    hide Step;
    assert [a, b, c, d, e][1..] == [b, c, d, e];
    RunFour(Step(l, a), b, c, d, e);
  }

  // ----- A rule for everybody

  /** One candidate of A, opened by one correction. */
  ghost predicate OneCandidate(l: Ledger, action: string, scope: Scope, status: Status) {
    && l.learn.candidates.Keys == {0} && l.learn.candidates[0].action == action && l.learn.candidates[0].scope == scope
    && l.learn.candidates[0].contradicting == 0 && l.learn.candidates[0].status == status
    && l.learn.candidates[0].key == Key("A", WORKFLOW, WorkflowDecision(WORKFLOW).0, HASH)
    && l.learn.corrections.Keys == {0} && l.learn.correctionKeys.Keys == {CorrectionKey("A", 0, 0, WrongAction, "m")}
    && l.learn.signals == {SignalId("A", 0, WrongAction, "m")}
  }

  ghost const HASH: seq<Encoded> := Map(Encode, CanonicalizeConditions([CONDITION]))

  /** Replies are read against the same packet and decision in both dockets. */
  predicate SameCase(a: Docket, b: Docket) {
    && PacketSound(a, 0) && PacketSound(b, 0) && b.packets == a.packets
    && b.points[a.packets[0].point].(status := "") == a.points[a.packets[0].point].(status := "")
  }

  lemma AfterFirst(l: Ledger, number: string, action: string, scope: Scope)
    requires CaseOpen(l, number) && action != ""
    ensures var op := Correct(number, "m", action, Some(scope), 0, 0);
      var v := Step(l, op);
      && Fresh(l, op) && OneCandidate(v, action, scope, Status.Candidate)
      && v.shelf == l.shelf && v.bindings == l.bindings && v.docket.packets == l.docket.packets
      && SameCase(l.docket, v.docket)
  {
    hide CanonicalizeConditions;
    var op := Correct(number, "m", action, Some(scope), 0, 0);
    var c := CorrectionOf(l.docket, op);
    assert !HasMatch(map[], KeyOf(c), c.action);
    assert ContradictSiblings(map[], KeyOf(c)) == map[];
  }

  lemma FirstKeeps(l: Ledger, number: string, action: string, scope: Scope)
    requires CaseOpen(l, number) && action != "" && Sound(l)
    ensures var v := Step(l, Correct(number, "m", action, Some(scope), 0, 0));
      Sound(v) && OneCandidate(v, action, scope, Status.Candidate) && v.shelf == l.shelf && v.shelf.rules == map[]
  {
    AfterFirst(l, number, action, scope);
    hide Step, Sound, OneCandidate;
    StepKeepsSound(l, Correct(number, "m", action, Some(scope), 0, 0));
  }

  /** What promoting the one candidate leaves. */
  ghost predicate OneRule(l: Ledger, action: string, scope: Scope) {
    && OneCandidate(l, action, scope, Promoted)
    && l.shelf.rules.Keys == {0} && l.shelf.rules[0].active && l.shelf.rules[0].action == action
    && l.shelf.rules[0].scope == scope && l.shelf.rules[0].key == l.learn.candidates[0].key
  }

  function PromoteFirst(reviewer: string): Op {
    PromoteCandidate("A", 0, reviewer, 0, 6, 0)
  }

  lemma AfterPromotion(l: Ledger, action: string, scope: Scope, reviewer: string)
    requires OneCandidate(l, action, scope, Status.Candidate) && l.shelf.rules == map[]
    requires reviewer != "" && 6 !in l.shelf.versions
    ensures var v := Step(l, PromoteFirst(reviewer));
      && Fresh(l, PromoteFirst(reviewer)) && OneRule(v, action, scope)
      && v.shelf.verticals == l.shelf.verticals && v.shelf.versions.Keys == l.shelf.versions.Keys + {6}
      && v.docket == l.docket && v.bindings == l.bindings
  {
    hide BuildManifest;
  }

  lemma LeftBehind(l: Ledger, reviewer: string)
    requires Sound(l) && "B" in l.shelf.verticals && l.shelf.rules == map[] && 6 !in l.shelf.versions
    requires OneCandidate(l, "hold", DefaultScope, Status.Candidate) && reviewer != ""
    ensures !IsSynced(Step(l, PromoteFirst(reviewer)).shelf, Slot("B", WORKFLOW))
  {
    hide Inv, IsSynced;
    StepInStep(l, PromoteFirst(reviewer), Slot("B", WORKFLOW));
  }

  lemma BehindAfterReply(l: Ledger, number: string, reviewer: string)
    requires CaseOpen(l, number) && Sound(l) && reviewer != ""
    requires "B" in l.shelf.verticals && 6 !in l.shelf.versions
    ensures var reply := Correct(number, "m", "hold", Some(DefaultScope), 0, 0);
      !IsSynced(Step(Step(l, reply), PromoteFirst(reviewer)).shelf, Slot("B", WORKFLOW))
  {
    hide Step, CaseOpen, OneCandidate, IsSynced, Correct;
    FirstKeeps(l, number, "hold", DefaultScope);
    var r := Step(l, Correct(number, "m", "hold", Some(DefaultScope), 0, 0));
    LeftBehind(r, reviewer);
  }

  /** A tenant's rule for everybody, promoted, leaves another tenant's slot behind. */
  lemma RuleForEverybodyLeavesOthersBehind(numberA: string, numberB: string, reviewer: string)
    requires numberA != "" && numberB != "" && numberA != numberB && reviewer != ""
    ensures var reply := Correct(numberA, "m", "hold", Some(DefaultScope), 0, 0);
      var l := Run(EMPTY, [ProvisionA(numberA), ProvisionB(numberB), START, reply, PromoteFirst(reviewer)]);
      !IsSynced(l.shelf, Slot("B", WORKFLOW))
  {
    hide Step, CaseOpen, Run, IsSynced, ProvisionA, ProvisionB, Correct, PromoteFirst;
    var reply := Correct(numberA, "m", "hold", Some(DefaultScope), 0, 0);
    CaseOfABesideB(numberA, numberB);
    BehindAfterReply(Step(Step(Step(EMPTY, ProvisionA(numberA)), ProvisionB(numberB)), START), numberA, reviewer);
    RunFive(EMPTY, ProvisionA(numberA), ProvisionB(numberB), START, reply, PromoteFirst(reviewer));
  }

  lemma BehindFromBirth(l: Ledger, number: string)
    requires Sound(l) && OneRule(l, "hold", DefaultScope) && number != "" && "B" !in l.shelf.verticals
    requires 3 !in l.shelf.versions && 4 !in l.shelf.versions && 5 !in l.shelf.versions
    ensures !IsSynced(Step(l, ProvisionB(number)).shelf, Slot("B", WORKFLOW))
  {
    Trims();
    hide Inv, IsSynced, Step, TrimSpace;
    assert IsForEverybody(l.shelf, 0, WORKFLOW);
    NewSlotInStep(l, ProvisionB(number), WORKFLOW);
  }

  /** A tenant provisioned after such a promotion starts behind: its first version is empty. */
  lemma NewcomerStartsBehind(numberA: string, numberB: string, reviewer: string)
    requires numberA != "" && numberB != "" && reviewer != ""
    ensures var reply := Correct(numberA, "m", "hold", Some(DefaultScope), 0, 0);
      var l := Run(EMPTY, [ProvisionA(numberA), START, reply, PromoteFirst(reviewer), ProvisionB(numberB)]);
      !IsSynced(l.shelf, Slot("B", WORKFLOW))
  {
    hide Step, Sound, Fresh, CaseOpen, Run, IsSynced, ProvisionA, ProvisionB, Correct, PromoteFirst, OneCandidate,
      OneRule;
    var reply := Correct(numberA, "m", "hold", Some(DefaultScope), 0, 0);
    CaseOfA(numberA);
    var s := Step(Step(EMPTY, ProvisionA(numberA)), START);
    FirstKeeps(s, numberA, "hold", DefaultScope);
    var r := Step(s, reply);
    AfterPromotion(r, "hold", DefaultScope, reviewer);
    StepKeepsSound(r, PromoteFirst(reviewer));
    BehindFromBirth(Step(r, PromoteFirst(reviewer)), numberB);
    RunFive(EMPTY, ProvisionA(numberA), START, reply, PromoteFirst(reviewer), ProvisionB(numberB));
  }

  // ----- A promoted candidate

  lemma SecondBears(s: Ledger, l: Ledger, number: string, action: string)
    requires CaseOpen(s, number) && OneRule(l, "hold", TenantScope) && action != ""
    requires l.bindings == s.bindings && SameCase(s.docket, l.docket)
    ensures Overwrites(l, Correct(number, "n", action, Some(TenantScope), 1, 1), 0)
      && Fresh(l, Correct(number, "n", action, Some(TenantScope), 1, 1))
      && Step(l, Correct(number, "n", action, Some(TenantScope), 1, 1)).shelf == l.shelf
  {
    hide CanonicalizeConditions, ReplyLearn, ReplyDocket;
    var op := Correct(number, "n", action, Some(TenantScope), 1, 1);
    assert KeyOf(CorrectionOf(l.docket, op)) == l.learn.candidates[0].key;
  }

  lemma LosesStatus(l: Ledger, op: Op)
    requires Sound(l) && OneRule(l, "hold", TenantScope) && Fresh(l, op) && Overwrites(l, op, 0)
    ensures var v := Step(l, op);
      && 0 in v.learn.candidates && v.learn.candidates[0].status != Promoted
      && v.shelf == l.shelf && 0 in l.learn.candidates && l.learn.candidates[0].status == Promoted
      && 0 in v.shelf.rules && v.shelf.rules[0].active && v.shelf.rules[0].action == "hold"
  {
    hide Inv, Step, Fresh, Overwrites;
    PromotedIsLostExactly(l, op, 0);
  }

  lemma PromotedThenCorrected(s: Ledger, number: string, reviewer: string, action: string)
    requires CaseOpen(s, number) && Sound(s) && 6 !in s.shelf.versions && reviewer != "" && action != ""
    ensures var l := Step(Step(s, Correct(number, "m", "hold", Some(TenantScope), 0, 0)), PromoteFirst(reviewer));
      var second := Correct(number, "n", action, Some(TenantScope), 1, 1);
      Sound(l) && OneRule(l, "hold", TenantScope) && Fresh(l, second) && Overwrites(l, second, 0)
  {
    hide Step, Sound, OneCandidate, OneRule, Fresh, Overwrites, Correct, PromoteFirst;
    var r := Step(s, Correct(number, "m", "hold", Some(TenantScope), 0, 0));
    AfterFirst(s, number, "hold", TenantScope);
    FirstKeeps(s, number, "hold", TenantScope);
    AfterPromotion(r, "hold", TenantScope, reviewer);
    StepKeepsSound(r, PromoteFirst(reviewer));
    hide CaseOpen;
    SecondBears(s, Step(r, PromoteFirst(reviewer)), number, action);
  }

  /** One more correction, for the promoted candidate or against it, takes its status; its rule stays active. */
  lemma PromotedIsOverwritten(number: string, reviewer: string, action: string)
    requires number != "" && reviewer != "" && action != ""
    ensures var first := Correct(number, "m", "hold", Some(TenantScope), 0, 0);
      var second := Correct(number, "n", action, Some(TenantScope), 1, 1);
      var l := Run(EMPTY, [ProvisionA(number), START, first, PromoteFirst(reviewer)]);
      var v := Run(EMPTY, [ProvisionA(number), START, first, PromoteFirst(reviewer), second]);
      && 0 in l.learn.candidates && l.learn.candidates[0].status == Promoted
      && 0 in v.learn.candidates && v.learn.candidates[0].status != Promoted
      && 0 in v.shelf.rules && v.shelf.rules[0].active && v.shelf.rules[0].action == "hold"
  {
    hide Step, Sound, CaseOpen, OneCandidate, Fresh, Run, Correct, Overwrites, PromoteFirst, ProvisionA;
    var first := Correct(number, "m", "hold", Some(TenantScope), 0, 0);
    var second := Correct(number, "n", action, Some(TenantScope), 1, 1);
    CaseOfA(number);
    var s := Step(Step(EMPTY, ProvisionA(number)), START);
    PromotedThenCorrected(s, number, reviewer, action);
    LosesStatus(Step(Step(s, first), PromoteFirst(reviewer)), second);
    RunFour(EMPTY, ProvisionA(number), START, first, PromoteFirst(reviewer));
    RunFive(EMPTY, ProvisionA(number), START, first, PromoteFirst(reviewer), second);
  }

  // ----- A contradicted candidate

  /** The first candidate is contradicted by the second and promoted all the same. */
  lemma ContradictedIsPromoted(number: string, reviewer: string)
    requires number != "" && reviewer != ""
    ensures var first := Correct(number, "m", "hold", Some(TenantScope), 0, 0);
      var second := Correct(number, "n", "quote", Some(TenantScope), 1, 1);
      var l := Run(EMPTY, [ProvisionA(number), START, first, second, PromoteFirst(reviewer)]);
      && 0 in l.learn.candidates && l.learn.candidates[0].contradicting == 1 && l.learn.candidates[0].status == Promoted
      && 0 in l.shelf.rules && l.shelf.rules[0].active && l.shelf.rules[0].action == "hold"
  {
    var first := Correct(number, "m", "hold", Some(TenantScope), 0, 0);
    var second := Correct(number, "n", "quote", Some(TenantScope), 1, 1);
    var promote := PromoteFirst(reviewer);
    CaseOfA(number);
    var s := Step(Step(EMPTY, ProvisionA(number)), START);
    hide Step, Sound, CaseOpen, OneCandidate, Fresh, Run;
    AfterFirst(s, number, "hold", TenantScope);
    AfterSecond(s, Step(s, first), number);
    PromotedAnyway(Step(Step(s, first), second), promote);
    RunFive(EMPTY, ProvisionA(number), START, first, second, promote);
  }

  lemma AfterSecond(s: Ledger, l: Ledger, number: string)
    requires CaseOpen(s, number) && OneCandidate(l, "hold", TenantScope, Status.Candidate)
    requires l.shelf == s.shelf && l.bindings == s.bindings && SameCase(s.docket, l.docket)
    ensures var v := Step(l, Correct(number, "n", "quote", Some(TenantScope), 1, 1));
      && 0 in v.learn.candidates && v.learn.candidates[0].contradicting == 1
      && v.learn.candidates[0].action == "hold" && v.learn.candidates[0].key.tenant == "A" && v.shelf == l.shelf
  {
    hide CanonicalizeConditions;
    var op := Correct(number, "n", "quote", Some(TenantScope), 1, 1);
    var c := CorrectionOf(l.docket, op);
    assert KeyOf(c) == l.learn.candidates[0].key;
    assert !HasMatch(l.learn.candidates, KeyOf(c), c.action);
  }

  lemma PromotedAnyway(l: Ledger, op: Op)
    requires op.PromoteCandidate? && op.tenant == "A" && op.candidate == 0 && op.reviewer != "" && op.rule == 0
    requires 0 in l.learn.candidates && l.learn.candidates[0].contradicting == 1
    requires l.learn.candidates[0].action == "hold" && l.learn.candidates[0].key.tenant == "A"
    ensures var v := Step(l, op);
      && 0 in v.learn.candidates && v.learn.candidates[0].contradicting == 1 && v.learn.candidates[0].status == Promoted
      && 0 in v.shelf.rules && v.shelf.rules[0].active && v.shelf.rules[0].action == "hold"
  {
    hide BuildManifest;
  }
}
