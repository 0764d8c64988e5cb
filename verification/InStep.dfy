/** When the skill version a slot decides by says what the rules visible to it say, over whole runs. Versions
 *  are frozen at a promotion of the tenant itself (internal/app/app.go), rules for everybody come and go
 *  without it.
 */
module InStep {
  import opened Bindings
  import opened Cases
  import opened Conditions
  import opened CorrectionLoop
  import opened Learning
  import opened Rules
  import opened Strings

  // ----- One step

  /** Another tenant's promotion changes what everybody sees in the workflow. */
  ghost predicate OvertakenBy(l: Ledger, op: Op, slot: Slot) {
    && op.PromoteCandidate? && Promotes(l, op) && op.tenant != slot.tenant && slot in l.shelf.activeVersion
    && l.learn.candidates[op.candidate].key.workflow == slot.workflow
    && ReachesEverybody(l.shelf, l.learn.candidates[op.candidate])
  }

  /** The tenant is new, and its workflow has an active rule for everybody already. */
  ghost predicate BornBehind(l: Ledger, op: Op, slot: Slot) {
    && op.ProvisionTenant? && Provisions(l, op) && op.tenant == slot.tenant && slot.workflow in WORKFLOWS
    && exists r :: IsForEverybody(l.shelf, r, slot.workflow)
  }

  ghost predicate Loses(l: Ledger, op: Op, slot: Slot) {
    OvertakenBy(l, op, slot) || BornBehind(l, op, slot)
  }

  /** A new tenant's slots start in step exactly where no rule for everybody is active. */
  lemma NewSlotInStep(l: Ledger, op: Op, workflow: string)
    requires Inv(l) && op.ProvisionTenant? && Fresh(l, op) && Provisions(l, op) && workflow in WORKFLOWS
    ensures IsSynced(Step(l, op).shelf, Slot(op.tenant, workflow)) <==>
      forall r :: !IsForEverybody(l.shelf, r, workflow)
  {
    hide LearnInv, ShelfInv, DocketInv, Provision, IsSynced, IsForEverybody;
    NothingFiledYet(l, op.tenant);
    ProvisionSync(l.shelf, op.tenant, TrimSpace(op.vertical), op.quote, op.triage, op.invoice, op.now,
      Slot(op.tenant, workflow));
  }

  lemma ProvisionInStep(l: Ledger, op: Op, slot: Slot)
    requires Inv(l) && op.ProvisionTenant? && Fresh(l, op) && IsSynced(l.shelf, slot)
    ensures IsSynced(Step(l, op).shelf, slot) <==> !Loses(l, op, slot)
  {
    hide LearnInv, ShelfInv, DocketInv, Provision, IsSynced, IsForEverybody;
    if Provisions(l, op) {
      NothingFiledYet(l, op.tenant);
      ProvisionSync(l.shelf, op.tenant, TrimSpace(op.vertical), op.quote, op.triage, op.invoice, op.now, slot);
    }
  }

  /** A tenant's own promotion in the workflow brings the slot in step, however far behind it was. */
  lemma OwnPromotionCatchesUp(l: Ledger, op: Op, slot: Slot)
    requires Inv(l) && op.PromoteCandidate? && Fresh(l, op) && Promotes(l, op) && op.tenant == slot.tenant
    requires l.learn.candidates[op.candidate].key.workflow == slot.workflow
    ensures IsSynced(Step(l, op).shelf, slot)
  {
    hide LearnInv, ShelfInv, DocketInv, Promote, Published, BuildManifest;
    PromoteKeeps(l.shelf, l.learn.candidates[op.candidate], op.candidate, op.reviewer, op.rule, op.version, op.now);
  }

  lemma PromotionInStep(l: Ledger, op: Op, slot: Slot)
    requires Inv(l) && op.PromoteCandidate? && Fresh(l, op) && IsSynced(l.shelf, slot)
    ensures IsSynced(Step(l, op).shelf, slot) <==> !Loses(l, op, slot)
  {
    hide LearnInv, ShelfInv, DocketInv, BuildManifest, ReachesEverybody;
    if Promotes(l, op) {
      var c := l.learn.candidates[op.candidate];
      if slot == Slot(c.key.tenant, c.key.workflow) {
        OwnPromotionCatchesUp(l, op, slot);
      } else if slot in l.shelf.activeVersion {
        SyncLostExactly(l.shelf, c, op.candidate, op.reviewer, op.rule, op.version, op.now, slot);
      }
    }
  }

  /** A slot in step leaves it exactly by another tenant's promotion that reaches everybody in its workflow,
   *  or enters behind by being provisioned beside such a rule.
   */
  lemma StepInStep(l: Ledger, op: Op, slot: Slot)
    requires Inv(l) && Fresh(l, op) && IsSynced(l.shelf, slot)
    ensures IsSynced(Step(l, op).shelf, slot) <==> !Loses(l, op, slot)
  {
    hide Inv, Fresh, IsSynced;
    match op
    case ProvisionTenant(_, _, _, _, _, _, _, _, _) => ProvisionInStep(l, op, slot);
    case Acknowledge(_, _, _, _) =>
    case Start(_, _, _, _, _, _, _) =>
    case Reply(_, _, _, _, _, _, _, _, _, _, _) =>
    case PromoteCandidate(_, _, _, _, _, _) => PromotionInStep(l, op, slot);
    case ReplayCase(_, _, _, _, _, _) =>
  }

  // ----- Runs

  /** No operation of the run makes the slot lose step. */
  ghost predicate Quiet(l: Ledger, ops: seq<Op>, slot: Slot)
    decreases |ops|
  {
    ops == [] || (!Loses(l, ops[0], slot) && Quiet(Step(l, ops[0]), ops[1..], slot))
  }

  ghost predicate AlwaysInStep(l: Ledger, ops: seq<Op>, slot: Slot)
    decreases |ops|
  {
    IsSynced(l.shelf, slot) && (ops == [] || AlwaysInStep(Step(l, ops[0]), ops[1..], slot))
  }

  lemma {:induction false} RunInStep(l: Ledger, ops: seq<Op>, slot: Slot)
    requires Inv(l) && FreshRun(l, ops) && IsSynced(l.shelf, slot)
    ensures AlwaysInStep(l, ops, slot) <==> Quiet(l, ops, slot)
    ensures Quiet(l, ops, slot) ==> IsSynced(Run(l, ops).shelf, slot)
    decreases |ops|
  {
    if ops != [] {
      hide Inv, Fresh, IsSynced, Step, Loses;
      StepInStep(l, ops[0], slot);
      StepKeepsInv(l, ops[0]);
      if IsSynced(Step(l, ops[0]).shelf, slot) {
        RunInStep(Step(l, ops[0]), ops[1..], slot);
      } else {
        assert !AlwaysInStep(Step(l, ops[0]), ops[1..], slot);
      }
    }
  }

  /** From the start, a slot is in step throughout a run exactly when nothing in the run makes it lose step. */
  lemma InStepExactly(ops: seq<Op>, slot: Slot)
    requires FreshRun(EMPTY, ops)
    ensures AlwaysInStep(EMPTY, ops, slot) <==> Quiet(EMPTY, ops, slot)
  {
    EmptyInv();
    RunInStep(EMPTY, ops, slot);
  }

  /** The skill version of a slot that was in step, at the start or since its tenant's last promotion, decides
   *  after any quiet run by the rules now visible: the applying rule of highest priority, then least id, else
   *  the default.
   */
  lemma ReachableDecision(l: Ledger, ops: seq<Op>, slot: Slot, payload: Payload)
    requires Inv(l) && FreshRun(l, ops) && IsSynced(l.shelf, slot) && Quiet(l, ops, slot)
    requires slot in Run(l, ops).shelf.activeVersion
    ensures var s := Run(l, ops).shelf;
      && Published(s, slot).Some?
      && var (action, matched) := Decide(slot.workflow, payload, Published(s, slot).value);
        && (matched <==> exists r :: Applies(s, slot, r, payload))
        && (matched ==> exists r :: IsBest(s, slot, r, payload) && action == s.rules[r].action)
        && (!matched ==> action == WorkflowDecision(slot.workflow).1)
  {
    RunKeepsInv(l, ops);
    RunInStep(l, ops, slot);
    var s := Run(l, ops).shelf;
    ActiveSlot(s, slot);
    hide Run, FreshRun, Quiet, Inv, IsBest, Applies, Decide, BuildManifest;
    DecideTakesBest(s, slot, payload);
  }

  // ----- What is enough

  /** Rules stay, with their key and scope. */
  ghost predicate RulesKept(a: Shelf, b: Shelf) {
    forall i :: i in a.rules ==>
      i in b.rules && b.rules[i].key == a.rules[i].key && b.rules[i].scope == a.rules[i].scope
  }

  lemma StepKeepsRules(l: Ledger, op: Op)
    requires Fresh(l, op)
    ensures RulesKept(l.shelf, Step(l, op).shelf)
  {
    hide ReplyLearn, ReplyDocket, StartCase, Replay, Consent, BuildManifest, NewRule;
  }

  lemma {:induction false} RunKeepsRules(l: Ledger, ops: seq<Op>)
    requires FreshRun(l, ops)
    ensures RulesKept(l.shelf, Run(l, ops).shelf)
    decreases |ops|
  {
    if ops != [] {
      hide Step, Fresh;
      StepKeepsRules(l, ops[0]);
      RunKeepsRules(Step(l, ops[0]), ops[1..]);
    }
  }

  lemma WithoutForeignDefaults(l: Ledger, op: Op, slot: Slot)
    requires Inv(l) && Fresh(l, op) && NoForeignDefaults(Step(l, op).shelf, slot.tenant)
    ensures !Loses(l, op, slot)
  {
    hide LearnInv, ShelfInv, DocketInv, StepReply, StartCase, Replay, Consent, BuildManifest;
    StepKeepsRules(l, op);
    if op.PromoteCandidate? && Promotes(l, op) {
      assert op.rule in Step(l, op).shelf.rules;
    }
  }

  /** A run in which no other tenant ever promotes a rule for everybody is quiet. */
  lemma {:induction false} NoForeignDefaultsIsQuiet(l: Ledger, ops: seq<Op>, slot: Slot)
    requires Inv(l) && FreshRun(l, ops) && NoForeignDefaults(Run(l, ops).shelf, slot.tenant)
    ensures Quiet(l, ops, slot)
    decreases |ops|
  {
    if ops != [] {
      hide Inv, Fresh, Step, Loses;
      RunKeepsRules(Step(l, ops[0]), ops[1..]);
      StepKeepsInv(l, ops[0]);
      WithoutForeignDefaults(l, ops[0], slot);
      NoForeignDefaultsIsQuiet(Step(l, ops[0]), ops[1..], slot);
    }
  }
}
