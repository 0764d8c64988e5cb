/** Tenant isolation: what a tenant's own tables hold after any run of all tenants is what they would
 *  hold had the tenant been alone (internal/app/app.go, internal/store/memory/store.go).
 */
module Isolation {
  import opened Bindings
  import opened Cases
  import opened Conditions
  import opened CorrectionLoop
  import opened Learning
  import opened Rules
  import opened Sorting
  import opened Strings

  // ----- A tenant's own part of the ledger

  function Own(log: seq<Id>, mine: set<Id>): seq<Id> {
    if log == [] then []
    else
      var last := log[|log| - 1];
      Own(log[..|log| - 1], mine) + (if last in mine then [last] else [])
  }

  function OwnCandidates(cands: map<Id, Candidate>, t: string): map<Id, Candidate> {
    map i | i in cands && cands[i].key.tenant == t :: cands[i]
  }

  function OwnRules(rules: map<Id, Rule>, t: string): map<Id, Rule> {
    map i | i in rules && rules[i].key.tenant == t :: rules[i]
  }

  function OwnVersions(versions: map<Id, SkillVersion>, t: string): map<Id, SkillVersion> {
    map i | i in versions && versions[i].slot.tenant == t :: versions[i]
  }

  function OwnActive(active: map<Slot, Id>, t: string): map<Slot, Id> {
    map slot: Slot | slot in active && slot.tenant == t :: active[slot]
  }

  function OwnVertical(verticals: map<string, string>, t: string): map<string, string> {
    map v | v in verticals && v == t :: verticals[v]
  }

  function OwnSignals(signals: set<SignalId>, t: string): set<SignalId> {
    set s | s in signals && s.tenant == t
  }

  function OwnCorrections(corrections: map<Id, Correction>, t: string): map<Id, Correction> {
    map i | i in corrections && corrections[i].tenant == t :: corrections[i]
  }

  function OwnKeys(keys: map<CorrectionKey, Id>, t: string): map<CorrectionKey, Id> {
    map k | k in keys && k.tenant == t :: keys[k]
  }

  function LearnOf(l: Learn, t: string): Learn {
    Learn(OwnSignals(l.signals, t), OwnCorrections(l.corrections, t), OwnKeys(l.correctionKeys, t),
      OwnCandidates(l.candidates, t), Own(l.log, OwnCandidates(l.candidates, t).Keys))
  }

  function ShelfOf(s: Shelf, t: string): Shelf {
    Shelf(OwnVertical(s.verticals, t),
      OwnRules(s.rules, t), Own(s.ruleLog, OwnRules(s.rules, t).Keys),
      OwnVersions(s.versions, t), Own(s.versionLog, OwnVersions(s.versions, t).Keys),
      OwnActive(s.activeVersion, t))
  }

  function OwnRuns(runs: map<Id, CaseRun>, t: string): map<Id, CaseRun> {
    map i | i in runs && runs[i].tenant == t :: runs[i]
  }

  function OwnPoints(points: map<Id, DecisionPoint>, t: string): map<Id, DecisionPoint> {
    map i | i in points && points[i].tenant == t :: points[i]
  }

  function OwnArtifacts(artifacts: map<Id, Artifact>, t: string): map<Id, Artifact> {
    map i | i in artifacts && artifacts[i].tenant == t :: artifacts[i]
  }

  function OwnPackets(packets: map<Id, ReviewPacket>, t: string): map<Id, ReviewPacket> {
    map i | i in packets && packets[i].tenant == t :: packets[i]
  }

  function DocketOf(d: Docket, t: string): Docket {
    Docket(OwnRuns(d.runs, t), OwnPoints(d.points, t), OwnArtifacts(d.artifacts, t), OwnPackets(d.packets, t))
  }

  function OwnBindings(b: Table, t: string): Table {
    map p | p in b && b[p].tenant == t :: b[p]
  }

  function View(l: Ledger, t: string): Ledger {
    Ledger(LearnOf(l.learn, t), ShelfOf(l.shelf, t), DocketOf(l.docket, t), OwnBindings(l.bindings, t))
  }

  /** The operation is the tenant's: for a reply, its number belongs to the tenant now. */
  predicate ActsFor(l: Ledger, op: Op, t: string) {
    if op.Reply? then op.provider in l.bindings && l.bindings[op.provider].tenant == t else op.tenant == t
  }

  /** The tenant's own operations of a run. */
  ghost function OpsOf(l: Ledger, ops: seq<Op>, t: string): seq<Op>
    decreases |ops|
  {
    if ops == [] then []
    else (if ActsFor(l, ops[0], t) then [ops[0]] else []) + OpsOf(Step(l, ops[0]), ops[1..], t)
  }

  // ----- Logs

  lemma {:induction false} OwnFrame(log: seq<Id>, a: set<Id>, b: set<Id>)
    requires forall i :: i in log ==> (i in a <==> i in b)
    ensures Own(log, a) == Own(log, b)
  {
    if log != [] {
      assert forall i :: i in log[..|log| - 1] ==> i in log;
      OwnFrame(log[..|log| - 1], a, b);
      assert log[|log| - 1] in log;
    }
  }

  lemma OwnAppend(log: seq<Id>, x: Id, mine: set<Id>, before: set<Id>)
    requires x !in log && (mine == before || mine == before + {x})
    ensures Own(log + [x], mine) == Own(log, before) + (if x in mine then [x] else [])
  {
    assert (log + [x])[..|log + [x]| - 1] == log;
    OwnFrame(log, mine, before);
  }

  // ----- Learning

  lemma ForeignStore(l: Learn, s: SignalId, id: Id, k: CorrectionKey, c: Correction, t: string)
    requires id !in l.corrections && s.tenant == c.tenant == k.tenant != t
    ensures LearnOf(MarkSeen(l, s), t) == LearnOf(l, t)
    ensures LearnOf(Store(l, id, k, c), t) == LearnOf(l, t)
  {
    assert OwnSignals(l.signals + {s}, t) == OwnSignals(l.signals, t);
    assert OwnCorrections(l.corrections[id := c], t) == OwnCorrections(l.corrections, t);
    assert OwnKeys(l.correctionKeys[k := id], t) == OwnKeys(l.correctionKeys, t);
  }

  lemma ForeignAddEvidence(l: Learn, id: Id, c: Correction, now: int, t: string)
    requires c.tenant != t && HasMatch(l.candidates, KeyOf(c), c.action)
    ensures LearnOf(AddEvidence(l, id, c, now), t) == LearnOf(l, t)
  {
    assert OwnCandidates(AddEvidence(l, id, c, now).candidates, t) == OwnCandidates(l.candidates, t);
  }

  lemma FirstCandidateIsOwn(id: Id, c: Correction, now: int)
    ensures FirstCandidate(id, c, now).key == KeyOf(c) && KeyOf(c).tenant == c.tenant
  {
  }

  lemma ForeignOpen(l: Learn, id: Id, c: Correction, newId: Id, now: int, t: string)
    requires LogIsComplete(l) && c.tenant != t && newId !in l.candidates
    ensures LearnOf(OpenCandidate(l, id, c, newId, now), t) == LearnOf(l, t)
  {
    hide KeyOf, FirstCandidate;
    FirstCandidateIsOwn(id, c, now);
    var mine := OwnCandidates(l.candidates, t);
    assert OwnCandidates(OpenCandidate(l, id, c, newId, now).candidates, t) == mine;
    assert newId !in l.log;
    OwnAppend(l.log, newId, mine.Keys, mine.Keys);
  }

  /** Another tenant's correction leaves the view alone. */
  lemma ForeignReceive(l: Learn, s: SignalId, id: Id, k: CorrectionKey, c: Correction, newId: Id, now: int, t: string)
    requires LogIsComplete(l) && id !in l.corrections && newId !in l.candidates
    requires s.tenant == c.tenant == k.tenant != t
    ensures LearnOf(Receive(l, s, id, k, c, newId, now), t) == LearnOf(l, t)
  {
    hide OpenCandidate, AddEvidence, HasMatch, KeyOf;
    ForeignStore(l, s, id, k, c, t);
    var seen := MarkSeen(l, s);
    ForeignStore(seen, s, id, k, c, t);
    var stored := Store(seen, id, k, c);
    ForeignOpen(stored, id, c, newId, now, t);
    if HasMatch(stored.candidates, KeyOf(c), c.action) {
      ForeignAddEvidence(stored, id, c, now, t);
    }
  }

  lemma MatchInView(l: Learn, t: string, key: Key, action: string)
    requires ActionsDiffer(l) && CandidatesOk(l) && key.tenant == t
    ensures HasMatch(LearnOf(l, t).candidates, key, action) <==> HasMatch(l.candidates, key, action)
    ensures HasMatch(l.candidates, key, action) ==>
      TheMatch(LearnOf(l, t).candidates, key, action) == TheMatch(l.candidates, key, action)
  {
    if HasMatch(l.candidates, key, action) {
      var m := TheMatch(l.candidates, key, action);
      assert m in LearnOf(l, t).candidates;
    }
  }

  lemma OwnAddEvidence(l: Learn, id: Id, c: Correction, now: int, t: string)
    requires ActionsDiffer(l) && CandidatesOk(l) && c.tenant == t && HasMatch(l.candidates, KeyOf(c), c.action)
    ensures HasMatch(LearnOf(l, t).candidates, KeyOf(c), c.action)
    ensures LearnOf(AddEvidence(l, id, c, now), t) == AddEvidence(LearnOf(l, t), id, c, now)
  {
    MatchInView(l, t, KeyOf(c), c.action);
    var m := TheMatch(l.candidates, KeyOf(c), c.action);
    var v := AddEvidence(l, id, c, now);
    assert OwnCandidates(v.candidates, t) == OwnCandidates(l.candidates, t)[m := v.candidates[m]];
    assert OwnCandidates(v.candidates, t).Keys == OwnCandidates(l.candidates, t).Keys;
  }

  lemma OwnOpen(l: Learn, id: Id, c: Correction, newId: Id, now: int, t: string)
    requires LogIsComplete(l) && c.tenant == t && newId !in l.candidates
    ensures LearnOf(OpenCandidate(l, id, c, newId, now), t) == OpenCandidate(LearnOf(l, t), id, c, newId, now)
  {
    hide KeyOf, FirstCandidate, IsSibling;
    FirstCandidateIsOwn(id, c, now);
    var v := OpenCandidate(l, id, c, newId, now);
    var mine := OwnCandidates(l.candidates, t);
    assert OwnCandidates(v.candidates, t) == ContradictSiblings(mine, KeyOf(c))[newId := FirstCandidate(id, c, now)];
    assert OwnCandidates(v.candidates, t).Keys == mine.Keys + {newId};
    assert newId !in l.log;
    OwnAppend(l.log, newId, OwnCandidates(v.candidates, t).Keys, mine.Keys);
  }

  lemma OwnMerge(l: Learn, id: Id, c: Correction, newId: Id, now: int, t: string)
    requires LogIsComplete(l) && ActionsDiffer(l) && CandidatesOk(l) && c.tenant == t && newId !in l.candidates
    ensures LearnOf(Merge(l, id, c, newId, now), t) == Merge(LearnOf(l, t), id, c, newId, now)
  {
    MatchInView(l, t, KeyOf(c), c.action);
    if Parsed(c) {
      if HasMatch(l.candidates, KeyOf(c), c.action) {
        OwnAddEvidence(l, id, c, now, t);
      } else {
        OwnOpen(l, id, c, newId, now, t);
      }
    }
  }

  lemma OwnStore(l: Learn, s: SignalId, id: Id, k: CorrectionKey, c: Correction, t: string)
    requires id !in l.corrections && s.tenant == c.tenant == k.tenant == t
    ensures LearnOf(MarkSeen(l, s), t) == MarkSeen(LearnOf(l, t), s)
    ensures LearnOf(Store(l, id, k, c), t) == Store(LearnOf(l, t), id, k, c)
  {
    assert OwnSignals(l.signals + {s}, t) == OwnSignals(l.signals, t) + {s};
    assert OwnCorrections(l.corrections[id := c], t) == OwnCorrections(l.corrections, t)[id := c];
    assert OwnKeys(l.correctionKeys[k := id], t) == OwnKeys(l.correctionKeys, t)[k := id];
  }

  /** A tenant's own correction acts on the view as it acts on the whole. */
  lemma OwnReceive(l: Learn, s: SignalId, id: Id, k: CorrectionKey, c: Correction, newId: Id, now: int, t: string)
    requires LogIsComplete(l) && ActionsDiffer(l) && CandidatesOk(l) && id !in l.corrections && newId !in l.candidates
    requires s.tenant == c.tenant == k.tenant == t
    ensures LearnOf(Receive(l, s, id, k, c, newId, now), t) == Receive(LearnOf(l, t), s, id, k, c, newId, now)
  {
    OwnStore(l, s, id, k, c, t);
    if s !in l.signals && c.button != Approve && k !in l.correctionKeys {
      var seen := MarkSeen(l, s);
      OwnStore(seen, s, id, k, c, t);
      OwnMerge(Store(seen, id, k, c), id, c, newId, now, t);
    }
  }

  lemma OwnPromoteIn(l: Learn, m: Id, t: string)
    requires m in l.candidates
    ensures if l.candidates[m].key.tenant == t
      then m in LearnOf(l, t).candidates && LearnOf(PromoteIn(l, m), t) == PromoteIn(LearnOf(l, t), m)
      else LearnOf(PromoteIn(l, m), t) == LearnOf(l, t)
  {
    var v := PromoteIn(l, m);
    assert OwnCandidates(v.candidates, t).Keys == OwnCandidates(l.candidates, t).Keys;
    if l.candidates[m].key.tenant == t {
      assert OwnCandidates(v.candidates, t) == OwnCandidates(l.candidates, t)[m := v.candidates[m]];
    } else {
      assert OwnCandidates(v.candidates, t) == OwnCandidates(l.candidates, t);
    }
  }

  // ----- Rules

  lemma OwnActiveUpdate(active: map<Slot, Id>, slot: Slot, id: Id, t: string)
    ensures OwnActive(active[slot := id], t) ==
      if slot.tenant == t then OwnActive(active, t)[slot := id] else OwnActive(active, t)
  {
  }

  lemma OwnVersionsUpdate(versions: map<Id, SkillVersion>, v: SkillVersion, id: Id, t: string)
    requires id !in versions
    ensures var after := OwnVersions(DeprecateVersions(versions, v.slot)[id := v], t);
      if v.slot.tenant == t
      then after == DeprecateVersions(OwnVersions(versions, t), v.slot)[id := v]
        && after.Keys == OwnVersions(versions, t).Keys + {id}
      else after == OwnVersions(versions, t)
  {
  }

  lemma OwnAddVersion(s: Shelf, v: SkillVersion, id: Id, t: string)
    requires Unused(s, id) && v.slot.tenant == t
    ensures ShelfOf(AddVersion(s, v, id), t) == AddVersion(ShelfOf(s, t), v, id)
  {
    OwnVersionsUpdate(s.versions, v, id, t);
    OwnAppend(s.versionLog, id, OwnVersions(AddVersion(s, v, id).versions, t).Keys, OwnVersions(s.versions, t).Keys);
    OwnActiveUpdate(s.activeVersion, v.slot, id, t);
  }

  lemma ForeignAddVersion(s: Shelf, v: SkillVersion, id: Id, t: string)
    requires Unused(s, id) && v.slot.tenant != t
    ensures ShelfOf(AddVersion(s, v, id), t) == ShelfOf(s, t)
  {
    OwnVersionsUpdate(s.versions, v, id, t);
    OwnAppend(s.versionLog, id, OwnVersions(AddVersion(s, v, id).versions, t).Keys, OwnVersions(s.versions, t).Keys);
    OwnActiveUpdate(s.activeVersion, v.slot, id, t);
  }

  lemma NewRuleInView(s: Shelf, c: Candidate, candidate: Id, reviewer: string, now: int)
    requires LogsComplete(s) && ChainsLinear(s)
    ensures NewRule(s, c, candidate, reviewer, now) == NewRule(ShelfOf(s, c.key.tenant), c, candidate, reviewer, now)
  {
    ActiveInView(s, c.key.tenant, c.key);
  }

  lemma OwnRulesUpdate(rules: map<Id, Rule>, key: Key, rule: Id, r: Rule)
    requires rule !in rules && r.key == key
    ensures OwnRules(Deprecate(rules, key)[rule := r], key.tenant) ==
      Deprecate(OwnRules(rules, key.tenant), key)[rule := r]
    ensures OwnRules(Deprecate(rules, key)[rule := r], key.tenant).Keys == OwnRules(rules, key.tenant).Keys + {rule}
  {
    var after, mine := OwnRules(Deprecate(rules, key)[rule := r], key.tenant), OwnRules(rules, key.tenant);
    assert after == Deprecate(mine, key)[rule := r];
    assert after.Keys == mine.Keys + {rule};
  }

  lemma OwnAddRule(s: Shelf, c: Candidate, candidate: Id, reviewer: string, rule: Id, now: int, t: string)
    requires LogsComplete(s) && ChainsLinear(s) && rule !in s.rules && c.key.tenant == t
    ensures ShelfOf(AddRule(s, c, candidate, reviewer, rule, now), t) ==
      AddRule(ShelfOf(s, t), c, candidate, reviewer, rule, now)
  {
    hide ChainsLinear, OwnRules, Deprecate, HasActive, TheActive;
    var mine, after := OwnRules(s.rules, t), OwnRules(AddRule(s, c, candidate, reviewer, rule, now).rules, t);
    NewRuleInView(s, c, candidate, reviewer, now);
    OwnRulesUpdate(s.rules, c.key, rule, NewRule(s, c, candidate, reviewer, now));
    assert rule !in s.ruleLog;
    assert mine.Keys <= after.Keys;
    OwnAppend(s.ruleLog, rule, after.Keys, mine.Keys);
  }

  lemma ForeignAddRule(s: Shelf, c: Candidate, candidate: Id, reviewer: string, rule: Id, now: int, t: string)
    requires LogsComplete(s) && rule !in s.rules && c.key.tenant != t
    ensures ShelfOf(AddRule(s, c, candidate, reviewer, rule, now), t) == ShelfOf(s, t)
  {
    var mine := OwnRules(s.rules, t);
    assert rule !in s.ruleLog;
    assert OwnRules(AddRule(s, c, candidate, reviewer, rule, now).rules, t) == mine;
    OwnAppend(s.ruleLog, rule, mine.Keys, mine.Keys);
  }

  lemma ActiveInView(s: Shelf, t: string, key: Key)
    requires LogsComplete(s) && ChainsLinear(s) && key.tenant == t
    ensures HasActive(ShelfOf(s, t).rules, key) <==> HasActive(s.rules, key)
    ensures HasActive(s.rules, key) ==> TheActive(ShelfOf(s, t).rules, key) == TheActive(s.rules, key)
  {
    ActiveIsLast(s, key);
    if HasActive(s.rules, key) {
      assert TheActive(s.rules, key) in ShelfOf(s, t).rules;
    }
  }

  /** No active rule for everybody in the workflow is another tenant's. */
  ghost predicate NoForeignActive(s: Shelf, slot: Slot) {
    forall i :: IsForEverybody(s, i, slot.workflow) ==> s.rules[i].key.tenant == slot.tenant
  }

  /** What a tenant sees of the rules, it sees of its own. */
  lemma {:induction false} EntriesInView(s: Shelf, view: Shelf, mine: set<Id>, log: seq<Id>, slot: Slot)
    requires VerticalsApart(s) && NoForeignActive(s, slot)
    requires view == ShelfOf(s, slot.tenant) && mine == view.rules.Keys
    ensures Entries(view, Own(log, mine), slot) == Entries(s, log, slot)
  {
    if log != [] {
      var init, last := log[..|log| - 1], log[|log| - 1];
      EntriesInView(s, view, mine, init, slot);
      if last in mine {
        assert Own(log, mine) == Own(init, mine) + [last];
        assert Own(log, mine)[..|Own(log, mine)| - 1] == Own(init, mine);
        assert IsVisible(view, view.rules[last], slot) == IsVisible(s, s.rules[last], slot);
      } else {
        assert Own(log, mine) == Own(init, mine);
        if last in s.rules {
          assert s.rules[last].key.tenant != slot.tenant && s.rules[last].vertical == "";
        }
      }
    }
  }

  lemma ManifestInView(s: Shelf, slot: Slot)
    requires ShelfInv(s) && NoForeignActive(s, slot)
    ensures BuildManifest(ShelfOf(s, slot.tenant), slot) == BuildManifest(s, slot)
    ensures NextVersion(ShelfOf(s, slot.tenant), slot) == NextVersion(s, slot)
  {
    EntriesInView(s, ShelfOf(s, slot.tenant), OwnRules(s.rules, slot.tenant).Keys, s.ruleLog, slot);
    if slot in s.activeVersion {
      ActiveSlot(s, slot);
    }
  }

  lemma OwnPromote(s: Shelf, c: Candidate, candidate: Id, reviewer: string, rule: Id, version: Id, now: int, t: string)
    requires ShelfInv(s) && rule !in s.rules && version !in s.versions
    requires NoForeignActive(s, Slot(t, c.key.workflow)) && c.key.tenant == t
    ensures ShelfOf(Promote(s, c, candidate, reviewer, rule, version, now), t) ==
      Promote(ShelfOf(s, t), c, candidate, reviewer, rule, version, now)
  {
    var mid, slot := AddRule(s, c, candidate, reviewer, rule, now), Slot(c.key.tenant, c.key.workflow);
    AddRuleKeeps(s, c, candidate, reviewer, rule, now);
    OwnAddRule(s, c, candidate, reviewer, rule, now, t);
    ManifestInView(mid, slot);
    OwnAddVersion(mid, SkillVersion(slot, NextVersion(mid, slot), BuildManifest(mid, slot), true, now), version, t);
  }

  lemma ManifestMembers(s: Shelf, slot: Slot)
    ensures forall e :: e in BuildManifest(s, slot) ==> e.rule in s.rules
  {
    ManifestLessIsWeakOrder();
    SortIsSortOf(ManifestLess, Entries(s, s.ruleLog, slot));
    EntriesElements(s, s.ruleLog, slot);
    forall e | e in BuildManifest(s, slot) ensures e in Entries(s, s.ruleLog, slot) {
      assert e in multiset(BuildManifest(s, slot));
    }
  }

  /** A foreign active rule for everybody is in the manifest, and it is not in the view's. */
  lemma ForeignRuleShows(s: Shelf, slot: Slot, i: Id)
    requires LogsComplete(s) && IsForEverybody(s, i, slot.workflow) && s.rules[i].key.tenant != slot.tenant
    ensures BuildManifest(s, slot) != BuildManifest(ShelfOf(s, slot.tenant), slot)
  {
    var e := Entry(i, s.rules[i]);
    BuildManifestElements(s, slot);
    ManifestMembers(ShelfOf(s, slot.tenant), slot);
    assert e in BuildManifest(s, slot) && e !in BuildManifest(ShelfOf(s, slot.tenant), slot);
  }

  /** A promotion of the tenant's own leaves a foreign rule active. */
  lemma ForeignRuleStays(s: Shelf, c: Candidate, candidate: Id, reviewer: string, rule: Id, now: int, slot: Slot)
      returns (i: Id)
    requires !NoForeignActive(s, slot) && c.key.tenant == slot.tenant && rule !in s.rules
    ensures var v := AddRule(s, c, candidate, reviewer, rule, now);
      IsForEverybody(v, i, slot.workflow) && v.rules[i].key.tenant != slot.tenant
  {
    i :| IsForEverybody(s, i, slot.workflow) && s.rules[i].key.tenant != slot.tenant;
  }

  /** With such a rule around, the tenant's own promotion publishes a manifest its view would not. */
  lemma OwnPromoteLeaks(s: Shelf, c: Candidate, candidate: Id, reviewer: string, rule: Id, version: Id, now: int,
      t: string)
    requires ShelfInv(s) && rule !in s.rules && version !in s.versions
    requires !NoForeignActive(s, Slot(t, c.key.workflow)) && c.key.tenant == t
    ensures ShelfOf(Promote(s, c, candidate, reviewer, rule, version, now), t) !=
      Promote(ShelfOf(s, t), c, candidate, reviewer, rule, version, now)
  {
    hide NoForeignActive, BuildManifest, ChainsLinear, HistoriesLinear;
    var mid, slot := AddRule(s, c, candidate, reviewer, rule, now), Slot(t, c.key.workflow);
    var i := ForeignRuleStays(s, c, candidate, reviewer, rule, now, slot);
    AddRuleKeeps(s, c, candidate, reviewer, rule, now);
    OwnAddRule(s, c, candidate, reviewer, rule, now, t);
    ForeignRuleShows(mid, slot, i);
    hide AddRule;
    assert version in ShelfOf(Promote(s, c, candidate, reviewer, rule, version, now), t).versions;
  }

  lemma ForeignPromote(s: Shelf, c: Candidate, candidate: Id, reviewer: string, rule: Id, version: Id, now: int,
      t: string)
    requires ShelfInv(s) && rule !in s.rules && version !in s.versions && c.key.tenant != t
    ensures ShelfOf(Promote(s, c, candidate, reviewer, rule, version, now), t) == ShelfOf(s, t)
  {
    var mid, slot := AddRule(s, c, candidate, reviewer, rule, now), Slot(c.key.tenant, c.key.workflow);
    AddRuleKeeps(s, c, candidate, reviewer, rule, now);
    ForeignAddRule(s, c, candidate, reviewer, rule, now, t);
    ForeignAddVersion(mid, SkillVersion(slot, NextVersion(mid, slot), BuildManifest(mid, slot), true, now), version, t);
  }

  lemma RegisterInView(s: Shelf, tenant: string, vertical: string, t: string)
    ensures ShelfOf(Register(s, tenant, vertical), t) ==
      if tenant == t then Register(ShelfOf(s, t), tenant, vertical) else ShelfOf(s, t)
  {
    assert OwnVertical(s.verticals[tenant := vertical], t) ==
      if tenant == t then OwnVertical(s.verticals, t)[tenant := vertical] else OwnVertical(s.verticals, t);
  }

  /** The id has not been used for a skill version. */
  predicate Unused(s: Shelf, id: Id) {
    id !in s.versions && id !in s.versionLog
  }

  lemma AddVersionUses(s: Shelf, v: SkillVersion, id: Id, other: Id)
    requires Unused(s, other) && other != id
    ensures Unused(AddVersion(s, v, id), other)
  {
  }

  lemma OwnProvision(s: Shelf, vertical: string, quote: Id, triage: Id, invoice: Id, now: int, t: string)
    requires Unused(s, quote) && Unused(s, triage) && Unused(s, invoice)
    requires quote != triage && triage != invoice && quote != invoice
    ensures ShelfOf(Provision(s, t, vertical, quote, triage, invoice, now), t) ==
      Provision(ShelfOf(s, t), t, vertical, quote, triage, invoice, now)
  {
    var q, r := FirstVersion(Slot(t, "quote_drafting"), now), FirstVersion(Slot(t, "enquiry_triage"), now);
    var a := Register(s, t, vertical);
    var b := AddVersion(a, q, quote);
    var c := AddVersion(b, r, triage);
    AddVersionUses(a, q, quote, triage);
    AddVersionUses(a, q, quote, invoice);
    AddVersionUses(b, r, triage, invoice);
    RegisterInView(s, t, vertical, t);
    OwnAddVersion(a, q, quote, t);
    OwnAddVersion(b, r, triage, t);
    OwnAddVersion(c, FirstVersion(Slot(t, "invoice_handling"), now), invoice, t);
  }

  lemma ForeignProvision(s: Shelf, tenant: string, vertical: string, quote: Id, triage: Id, invoice: Id, now: int,
      t: string)
    requires Unused(s, quote) && Unused(s, triage) && Unused(s, invoice) && tenant != t
    requires quote != triage && triage != invoice && quote != invoice
    ensures ShelfOf(Provision(s, tenant, vertical, quote, triage, invoice, now), t) == ShelfOf(s, t)
  {
    var q, r := FirstVersion(Slot(tenant, "quote_drafting"), now), FirstVersion(Slot(tenant, "enquiry_triage"), now);
    var a := Register(s, tenant, vertical);
    var b := AddVersion(a, q, quote);
    var c := AddVersion(b, r, triage);
    AddVersionUses(a, q, quote, triage);
    AddVersionUses(a, q, quote, invoice);
    AddVersionUses(b, r, triage, invoice);
    RegisterInView(s, tenant, vertical, t);
    ForeignAddVersion(a, q, quote, t);
    ForeignAddVersion(b, r, triage, t);
    ForeignAddVersion(c, FirstVersion(Slot(tenant, "invoice_handling"), now), invoice, t);
  }

  // ----- Cases

  lemma OwnRunsUpdate(runs: map<Id, CaseRun>, i: Id, x: CaseRun, t: string)
    requires i in runs ==> runs[i].tenant == x.tenant
    ensures OwnRuns(runs[i := x], t) == if x.tenant == t then OwnRuns(runs, t)[i := x] else OwnRuns(runs, t)
  {
  }

  lemma OwnPointsUpdate(points: map<Id, DecisionPoint>, i: Id, x: DecisionPoint, t: string)
    requires i in points ==> points[i].tenant == x.tenant
    ensures OwnPoints(points[i := x], t) == if x.tenant == t then OwnPoints(points, t)[i := x] else OwnPoints(points, t)
  {
  }

  lemma OwnArtifactsUpdate(artifacts: map<Id, Artifact>, i: Id, x: Artifact, t: string)
    requires i !in artifacts
    ensures OwnArtifacts(artifacts[i := x], t) ==
      if x.tenant == t then OwnArtifacts(artifacts, t)[i := x] else OwnArtifacts(artifacts, t)
  {
  }

  lemma OwnPacketsUpdate(packets: map<Id, ReviewPacket>, i: Id, x: ReviewPacket, t: string)
    requires i !in packets
    ensures OwnPackets(packets[i := x], t) ==
      if x.tenant == t then OwnPackets(packets, t)[i := x] else OwnPackets(packets, t)
  {
  }

  lemma StartInView(d: Docket, s: Shelf, tenant: string, workflow: string, payload: Payload, agent: Option<string>,
      ids: StartIds, now: int, t: string)
    requires FreshStart(d, ids)
    requires Slot(tenant, workflow) in s.activeVersion && s.activeVersion[Slot(tenant, workflow)] in s.versions
    requires s.versions[s.activeVersion[Slot(tenant, workflow)]].slot.tenant == tenant
    ensures var after := DocketOf(StartCase(d, s, tenant, workflow, payload, agent, ids, now), t);
      if tenant == t then
        && Slot(t, workflow) in ShelfOf(s, t).activeVersion
        && ShelfOf(s, t).activeVersion[Slot(t, workflow)] in ShelfOf(s, t).versions
        && after == StartCase(DocketOf(d, t), ShelfOf(s, t), t, workflow, payload, agent, ids, now)
      else after == DocketOf(d, t)
  {
    var v := StartCase(d, s, tenant, workflow, payload, agent, ids, now);
    OwnRunsUpdate(d.runs, ids.run, v.runs[ids.run], t);
    OwnPointsUpdate(d.points, ids.point, v.points[ids.point], t);
    OwnPacketsUpdate(d.packets, ids.packet, v.packets[ids.packet], t);
    var draft := Artifact(tenant, ids.run, false, map[]);
    OwnArtifactsUpdate(d.artifacts, ids.draft, draft, t);
    OwnArtifactsUpdate(d.artifacts[ids.draft := draft], ids.snapshot, v.artifacts[ids.snapshot], t);
  }

  lemma SetStatusInView(d: Docket, packet: Id, status: string, t: string)
    requires PacketSound(d, packet)
    ensures var p := d.packets[packet];
      var after := DocketOf(SetStatus(d, p.caseRun, p.point, status), t);
      if p.tenant == t then PacketSound(DocketOf(d, t), packet)
        && after == SetStatus(DocketOf(d, t), p.caseRun, p.point, status)
      else after == DocketOf(d, t)
  {
    var p := d.packets[packet];
    OwnRunsUpdate(d.runs, p.caseRun, d.runs[p.caseRun].(status := status), t);
    OwnPointsUpdate(d.points, p.point, d.points[p.point].(status := status), t);
  }

  lemma ReplayInView(d: Docket, s: Shelf, tenant: string, run: Id, version: Id, newRun: Id, newPoint: Id, t: string)
    requires DocketInv(d, s) && HasRun(d, tenant, run) && newRun !in d.runs && newPoint !in d.points
    requires version in s.versions && s.versions[version].slot.tenant == tenant
    ensures var after := DocketOf(ReplayWith(d, s, tenant, run, version, newRun, newPoint), t);
      if tenant == t then
        run in DocketOf(d, t).runs
          && after == ReplayWith(DocketOf(d, t), ShelfOf(s, t), t, run, version, newRun, newPoint)
      else after == DocketOf(d, t)
  {
    var v := ReplayWith(d, s, tenant, run, version, newRun, newPoint);
    OwnRunsUpdate(d.runs, newRun, v.runs[newRun], t);
    OwnPointsUpdate(d.points, newPoint, v.points[newPoint], t);
    SnapshotIsPayload(d, tenant, run);
    if tenant == t {
      SnapshotsSoundInView(d, s, t);
      SnapshotIsPayload(DocketOf(d, t), t, run);
    }
  }

  lemma SnapshotsSoundInView(d: Docket, s: Shelf, t: string)
    requires DocketInv(d, s)
    ensures SnapshotsSound(DocketOf(d, t))
  {
  }

  lemma ReplayVersionInView(d: Docket, s: Shelf, run: Id, named: Option<Id>, current: bool, t: string)
    requires HistoriesLinear(s) && HasRun(d, t, run)
    ensures ReplayVersion(DocketOf(d, t), ShelfOf(s, t), t, run, named, current) ==
      ReplayVersion(d, s, t, run, named, current)
    ensures ReplayVersion(d, s, t, run, named, current).Some? ==>
      ReplayVersion(d, s, t, run, named, current).value in s.versions
        && s.versions[ReplayVersion(d, s, t, run, named, current).value].slot.tenant == t
  {
    var slot := Slot(t, d.runs[run].workflow);
    if slot in s.activeVersion {
      ActiveSlot(s, slot);
    }
  }

  // ----- Bindings

  lemma ClaimInView(b: Table, tenant: string, number: string, t: string)
    ensures tenant == t ==> OwnBindings(Claim(b, tenant, number), t) == Claim(OwnBindings(b, t), tenant, number)
    ensures tenant != t ==> (OwnBindings(Claim(b, tenant, number), t) == OwnBindings(b, t) <==> !Owns(b, number, t))
  {
    var after, before := OwnBindings(Claim(b, tenant, number), t), OwnBindings(b, t);
    if tenant == t {
      assert after == Claim(before, tenant, number);
    } else {
      assert Telegram(number) !in after && WhatsApp(number) !in after;
      if !Owns(b, number, t) {
        assert after == before;
      }
    }
  }

  /** The number is the tenant's on some channel. */
  predicate Owns(b: Table, number: string, t: string) {
    || (Telegram(number) in b && b[Telegram(number)].tenant == t)
    || (WhatsApp(number) in b && b[WhatsApp(number)].tenant == t)
  }

  lemma AcknowledgeInView(b: Table, tenant: string, mode: string, draft: string, operator: string, t: string)
    requires OnePerChannel(b)
    ensures OwnBindings(Consent(b, tenant, mode, draft, operator), t) ==
      if tenant == t then Consent(OwnBindings(b, t), tenant, mode, draft, operator) else OwnBindings(b, t)
  {
    if HasWhatsApp(b, tenant) && tenant == t {
      assert IsWhatsAppOf(OwnBindings(b, t), TheWhatsApp(b, t), t);
    }
    if HasWhatsApp(OwnBindings(b, t), t) {
      assert IsWhatsAppOf(b, TheWhatsApp(OwnBindings(b, t), t), t);
    }
  }

  // ----- Steps

  /** The operation acts on a tenant's view as on the whole, and not at all when it is another's. */
  ghost predicate ActsInView(l: Ledger, op: Op, t: string) {
    View(Step(l, op), t) == if ActsFor(l, op, t) then Step(View(l, t), op) else View(l, t)
  }

  /** Another tenant is provisioned with a number of this one. */
  predicate TakesNumber(l: Ledger, op: Op, t: string) {
    op.ProvisionTenant? && op.tenant != t && Provisions(l, op) && Owns(l.bindings, op.number, t)
  }

  /** The tenant promotes in a workflow where another tenant's rule for everybody is active. */
  ghost predicate SeesForeignRule(l: Ledger, op: Op, t: string) {
    && op.PromoteCandidate? && op.tenant == t && Promotes(l, op)
    && !NoForeignActive(l.shelf, Slot(t, l.learn.candidates[op.candidate].key.workflow))
  }

  ghost predicate Disturbs(l: Ledger, op: Op, t: string) {
    TakesNumber(l, op, t) || SeesForeignRule(l, op, t)
  }

  lemma ProvisionShelfInView(l: Ledger, op: Op, t: string)
    requires ShelfInv(l.shelf) && Fresh(l, op) && op.ProvisionTenant? && Provisions(l, op)
    ensures ShelfOf(StepProvision(l, op).shelf, t) ==
      if op.tenant == t
      then Provision(ShelfOf(l.shelf, t), t, TrimSpace(op.vertical), op.quote, op.triage, op.invoice, op.now)
      else ShelfOf(l.shelf, t)
  {
    var vertical := TrimSpace(op.vertical);
    if op.tenant == t {
      OwnProvision(l.shelf, vertical, op.quote, op.triage, op.invoice, op.now, t);
    } else {
      ForeignProvision(l.shelf, op.tenant, vertical, op.quote, op.triage, op.invoice, op.now, t);
    }
  }

  lemma ProvisionStepInView(l: Ledger, op: Op, t: string)
    requires Inv(l) && Fresh(l, op) && op.ProvisionTenant?
    ensures ActsInView(l, op, t) <==> !TakesNumber(l, op, t)
  {
    hide ShelfInv, LearnInv, DocketInv, TenantsKnown, Provision, ShelfOf, LearnOf, DocketOf, Claim;
    assert op.tenant in ShelfOf(l.shelf, op.tenant).verticals <==> op.tenant in l.shelf.verticals by {
      VerticalInView(l.shelf, op.tenant);
    }
    if Provisions(l, op) {
      ProvisionShelfInView(l, op, t);
      ClaimInView(l.bindings, op.tenant, op.number, t);
    }
  }

  lemma VerticalInView(s: Shelf, t: string)
    ensures t in ShelfOf(s, t).verticals <==> t in s.verticals
  {
  }

  lemma AcknowledgeStepInView(l: Ledger, op: Op, t: string)
    requires OnePerChannel(l.bindings) && op.Acknowledge?
    ensures ActsInView(l, op, t)
  {
    hide ShelfOf, LearnOf, DocketOf, Consent;
    AcknowledgeInView(l.bindings, op.tenant, op.inboundMode, op.draft, op.operatorJid, t);
  }

  lemma StartCheckInView(s: Shelf, workflow: string, mode: string, payload: Payload, t: string)
    requires HistoriesLinear(s)
    ensures StartCheck(ShelfOf(s, t), t, workflow, mode, payload) == StartCheck(s, t, workflow, mode, payload)
  {
    if Slot(t, workflow) in s.activeVersion {
      ActiveSlot(s, Slot(t, workflow));
    }
  }

  lemma StartStepInView(l: Ledger, op: Op, t: string)
    requires Inv(l) && Fresh(l, op) && op.Start?
    ensures ActsInView(l, op, t)
  {
    hide LearnInv, DocketInv, TenantsKnown, ShelfOf, LearnOf, DocketOf, StartCase;
    StartCheckInView(l.shelf, op.workflow, op.mode, op.payload, t);
    if StartCheck(l.shelf, op.tenant, op.workflow, op.mode, op.payload).None? {
      ActiveSlot(l.shelf, Slot(op.tenant, op.workflow));
      StartInView(l.docket, l.shelf, op.tenant, op.workflow, op.payload, op.agent, op.ids, op.now, t);
    }
  }

  lemma AdmittedInView(l: Ledger, op: Op, t: string)
    requires op.Reply? && ActsFor(l, op, t)
    ensures Admitted(View(l, t), op) <==> Admitted(l, op)
    ensures Admitted(l, op) ==>
      && SignalOf(DocketOf(l.docket, t), op) == SignalOf(l.docket, op) && SignalOf(l.docket, op).tenant == t
      && CorrectionOf(DocketOf(l.docket, t), op) == CorrectionOf(l.docket, op)
      && CorrectionKeyOf(DocketOf(l.docket, t), op) == CorrectionKeyOf(l.docket, op)
  {
  }

  lemma ReplyDocketInView(l: Ledger, op: Op, t: string)
    requires op.Reply? && Admitted(l, op)
    ensures ActsFor(l, op, t) ==>
      Admitted(View(l, t), op) && DocketOf(ReplyDocket(l, op), t) == ReplyDocket(View(l, t), op)
    ensures !ActsFor(l, op, t) ==> DocketOf(ReplyDocket(l, op), t) == DocketOf(l.docket, t)
  {
    SetStatusInView(l.docket, op.packet, "approved", t);
    SetStatusInView(l.docket, op.packet, "corrected", t);
    if ActsFor(l, op, t) {
      AdmittedInView(l, op, t);
      assert CorrectionKeyOf(l.docket, op) in LearnOf(l.learn, t).correctionKeys <==>
        CorrectionKeyOf(l.docket, op) in l.learn.correctionKeys;
    }
  }

  lemma OwnReplyStep(l: Ledger, op: Op, t: string)
    requires LearnInv(l.learn) && Fresh(l, op) && op.Reply? && ActsFor(l, op, t)
    ensures View(StepReply(l, op), t) == StepReply(View(l, t), op)
  {
    hide ReplyDocket, Receive, DocketOf;
    AdmittedInView(l, op, t);
    if Admitted(l, op) && SignalOf(l.docket, op) !in l.learn.signals {
      ReplyDocketInView(l, op, t);
      OwnReceive(l.learn, SignalOf(l.docket, op), op.correction, CorrectionKeyOf(l.docket, op),
        CorrectionOf(l.docket, op), op.candidate, op.now, t);
    }
  }

  lemma ForeignReplyStep(l: Ledger, op: Op, t: string)
    requires LearnInv(l.learn) && Fresh(l, op) && op.Reply? && !ActsFor(l, op, t)
    ensures View(StepReply(l, op), t) == View(l, t)
  {
    hide ReplyDocket, Receive, DocketOf;
    if Admitted(l, op) && SignalOf(l.docket, op) !in l.learn.signals {
      ReplyDocketInView(l, op, t);
      ForeignReceive(l.learn, SignalOf(l.docket, op), op.correction, CorrectionKeyOf(l.docket, op),
        CorrectionOf(l.docket, op), op.candidate, op.now, t);
    }
  }

  lemma PromotesInView(l: Ledger, op: Op)
    requires op.PromoteCandidate?
    ensures Promotes(View(l, op.tenant), op) <==> Promotes(l, op)
    ensures Promotes(l, op) ==> View(l, op.tenant).learn.candidates[op.candidate] == l.learn.candidates[op.candidate]
  {
  }

  lemma OwnPromoteStep(l: Ledger, op: Op, t: string)
    requires Inv(l) && Fresh(l, op) && op.PromoteCandidate? && op.tenant == t
    ensures ActsInView(l, op, t) <==> !SeesForeignRule(l, op, t)
  {
    hide LearnInv, ShelfInv, DocketInv, TenantsKnown, Promote, PromoteIn, NoForeignActive, ShelfOf,
      LearnOf, DocketOf;
    PromotesInView(l, op);
    if Promotes(l, op) {
      var c := l.learn.candidates[op.candidate];
      OwnPromoteIn(l.learn, op.candidate, t);
      if SeesForeignRule(l, op, t) {
        OwnPromoteLeaks(l.shelf, c, op.candidate, op.reviewer, op.rule, op.version, op.now, t);
      } else {
        OwnPromote(l.shelf, c, op.candidate, op.reviewer, op.rule, op.version, op.now, t);
      }
    }
  }

  lemma ForeignPromoteStep(l: Ledger, op: Op, t: string)
    requires Inv(l) && Fresh(l, op) && op.PromoteCandidate? && op.tenant != t
    ensures ActsInView(l, op, t)
  {
    hide LearnInv, ShelfInv, DocketInv, TenantsKnown, Promote, PromoteIn, ShelfOf, LearnOf, DocketOf;
    if Promotes(l, op) {
      var c := l.learn.candidates[op.candidate];
      OwnPromoteIn(l.learn, op.candidate, t);
      ForeignPromote(l.shelf, c, op.candidate, op.reviewer, op.rule, op.version, op.now, t);
    }
  }

  lemma ReplayStepInView(l: Ledger, op: Op, t: string)
    requires Inv(l) && Fresh(l, op) && op.ReplayCase?
    ensures ActsInView(l, op, t)
  {
    hide LearnInv, TenantsKnown, DocketInv, ReplayWith, ReplayVersion, ShelfOf, LearnOf;
    if HasRun(l.docket, op.tenant, op.run) {
      ReplayVersionInView(l.docket, l.shelf, op.run, op.named, op.current, op.tenant);
      var version := ReplayVersion(l.docket, l.shelf, op.tenant, op.run, op.named, op.current);
      if version.Some? {
        ReplayInView(l.docket, l.shelf, op.tenant, op.run, version.value, op.newRun, op.newPoint, t);
      }
    }
  }

  /** An operation acts on a tenant's view as on the whole exactly when it neither takes a number of the
   *  tenant away nor publishes another tenant's rule to it.
   */
  lemma StepInView(l: Ledger, op: Op, t: string)
    requires Inv(l) && Fresh(l, op)
    ensures ActsInView(l, op, t) <==> !Disturbs(l, op, t)
  {
    hide ActsInView, ShelfInv, LearnInv, DocketInv, TenantsKnown, StepReply;
    match op
    case ProvisionTenant(_, _, _, _, _, _, _, _, _) => ProvisionStepInView(l, op, t);
    case Acknowledge(_, _, _, _) => AcknowledgeStepInView(l, op, t);
    case Start(_, _, _, _, _, _, _) => StartStepInView(l, op, t);
    case Reply(_, _, _, _, _, _, _, _, _, _, _) => ReplyStepInView(l, op, t);
    case PromoteCandidate(_, _, _, _, _, _) =>
      if op.tenant == t {
        OwnPromoteStep(l, op, t);
      } else {
        ForeignPromoteStep(l, op, t);
      }
    case ReplayCase(_, _, _, _, _, _) => ReplayStepInView(l, op, t);
  }

  lemma ReplyStepInView(l: Ledger, op: Op, t: string)
    requires Inv(l) && Fresh(l, op) && op.Reply?
    ensures ActsInView(l, op, t)
  {
    hide View, StepReply, ShelfInv, DocketInv, TenantsKnown;
    if ActsFor(l, op, t) {
      OwnReplyStep(l, op, t);
    } else {
      ForeignReplyStep(l, op, t);
    }
  }

  // ----- Runs

  ghost predicate UndisturbedRun(l: Ledger, ops: seq<Op>, t: string)
    decreases |ops|
  {
    ops == [] || (!Disturbs(l, ops[0], t) && UndisturbedRun(Step(l, ops[0]), ops[1..], t))
  }

  lemma {:induction false} RunInView(l: Ledger, ops: seq<Op>, t: string)
    requires Inv(l) && FreshRun(l, ops) && UndisturbedRun(l, ops, t)
    ensures View(Run(l, ops), t) == Run(View(l, t), OpsOf(l, ops, t))
    decreases |ops|
  {
    if ops != [] {
      hide Step, Inv, Fresh, View, Disturbs;
      var op, rest := ops[0], OpsOf(Step(l, ops[0]), ops[1..], t);
      StepInView(l, op, t);
      StepKeepsInv(l, op);
      RunInView(Step(l, op), ops[1..], t);
      if ActsFor(l, op, t) {
        assert OpsOf(l, ops, t)[0] == op && OpsOf(l, ops, t)[1..] == rest;
      } else {
        assert OpsOf(l, ops, t) == rest;
      }
    }
  }

  lemma EmptyView(t: string)
    ensures View(EMPTY, t) == EMPTY
  {
    assert OwnSignals({}, t) == {} && OwnActive(map[], t) == map[];
  }

  /** After any run of all tenants, a tenant's tables are those of its own operations run alone, unless
   *  some operation on the way took one of its numbers or published another tenant's rule to it.
   */
  lemma TenantsDoNotInterfere(ops: seq<Op>, t: string)
    requires FreshRun(EMPTY, ops) && UndisturbedRun(EMPTY, ops, t)
    ensures View(Run(EMPTY, ops), t) == Run(EMPTY, OpsOf(EMPTY, ops, t))
  {
    EmptyInv();
    RunInView(EMPTY, ops, t);
    EmptyView(t);
  }

  // ----- What keeps a run undisturbed

  /** The numbers the tenant is provisioned with. */
  function NumbersOf(ops: seq<Op>, t: string): set<string> {
    set op | op in ops && op.ProvisionTenant? && op.tenant == t :: op.number
  }

  /** Nobody else is provisioned with one of the numbers, and no reply on another number asks for a rule
   *  for everybody.
   */
  predicate KeepsApart(op: Op, numbers: set<string>, t: string) {
    && (op.ProvisionTenant? ==> (op.tenant == t <==> op.number in numbers))
    && (op.Reply? && op.provider.number !in numbers ==> op.scopeHint != Some(DefaultScope))
  }

  /** Numbers and rules for everybody are in their places. */
  ghost predicate Apart(l: Ledger, numbers: set<string>, t: string) {
    && (forall p :: p in l.bindings ==> (l.bindings[p].tenant == t <==> p.number in numbers))
    && NoForeignDefaults(l.shelf, t)
    && (forall c :: c in l.learn.candidates && l.learn.candidates[c].scope == DefaultScope ==>
      l.learn.candidates[c].key.tenant == t)
  }

  lemma ApartIsUndisturbed(l: Ledger, op: Op, numbers: set<string>, t: string)
    requires Apart(l, numbers, t) && KeepsApart(op, numbers, t)
    ensures !Disturbs(l, op, t)
  {
  }

  lemma ReplyStaysApart(l: Ledger, op: Op, numbers: set<string>, t: string)
    requires Apart(l, numbers, t) && op.Reply? && KeepsApart(op, numbers, t)
    ensures Apart(StepReply(l, op), numbers, t)
  {
    hide SetStatus, CanonicalizeConditions, ElementsOf;
  }

  lemma PromoteStaysApart(l: Ledger, op: Op, numbers: set<string>, t: string)
    requires Apart(l, numbers, t) && op.PromoteCandidate?
    ensures Apart(StepPromote(l, op), numbers, t)
  {
    hide BuildManifest;
  }

  lemma StepStaysApart(l: Ledger, op: Op, numbers: set<string>, t: string)
    requires Inv(l) && Apart(l, numbers, t) && KeepsApart(op, numbers, t)
    ensures Apart(Step(l, op), numbers, t)
  {
    hide StepReply, StepPromote, Consent, ShelfInv, LearnInv, DocketInv, TenantsKnown, Replay,
      StartCase;
    match op
    case ProvisionTenant(_, _, _, _, _, _, _, _, _) =>
    case Acknowledge(_, _, _, _) => ConsentKeepsOne(l.bindings, op.tenant, op.inboundMode, op.draft, op.operatorJid);
    case Start(_, _, _, _, _, _, _) =>
    case Reply(_, _, _, _, _, _, _, _, _, _, _) => ReplyStaysApart(l, op, numbers, t);
    case PromoteCandidate(_, _, _, _, _, _) => PromoteStaysApart(l, op, numbers, t);
    case ReplayCase(_, _, _, _, _, _) =>
  }

  lemma {:induction false} ApartRun(l: Ledger, ops: seq<Op>, numbers: set<string>, t: string)
    requires Inv(l) && FreshRun(l, ops) && Apart(l, numbers, t)
    requires forall op :: op in ops ==> KeepsApart(op, numbers, t)
    ensures UndisturbedRun(l, ops, t)
    decreases |ops|
  {
    if ops != [] {
      hide Step, Inv, Fresh, Apart, KeepsApart, Disturbs;
      assert ops[0] in ops && forall op :: op in ops[1..] ==> op in ops;
      ApartIsUndisturbed(l, ops[0], numbers, t);
      StepStaysApart(l, ops[0], numbers, t);
      StepKeepsInv(l, ops[0]);
      ApartRun(Step(l, ops[0]), ops[1..], numbers, t);
    }
  }

  /** Enough to know beforehand: the tenant shares no number, and replies on other numbers ask for no rule
   *  for everybody.
   */
  lemma SeparateNumbersSuffice(ops: seq<Op>, t: string)
    requires FreshRun(EMPTY, ops) && (forall op :: op in ops ==> KeepsApart(op, NumbersOf(ops, t), t))
    ensures UndisturbedRun(EMPTY, ops, t) && View(Run(EMPTY, ops), t) == Run(EMPTY, OpsOf(EMPTY, ops, t))
  {
    EmptyInv();
    ApartRun(EMPTY, ops, NumbersOf(ops, t), t);
    TenantsDoNotInterfere(ops, t);
  }
}
