/** Promoted rules, skill versions and the decisions they give: PromoteCandidate, createSkillVersion
 *  and evaluateDecision of internal/app/app.go over the rule tables of internal/store/memory/store.go.
 */
module Rules {
  import opened Conditions
  import opened Learning
  import opened Sorting

  datatype Rule = Rule(
    key: Key, conditions: seq<Condition>, action: string, scope: Scope, vertical: string,
    version: nat, supersedes: Option<Id>, candidate: Id, reviewer: string, at: int, active: bool)

  datatype ManifestRule = ManifestRule(
    rule: Id, scope: Scope, version: nat, decisionType: string,
    conditions: seq<Condition>, action: string, priority: nat)

  datatype Slot = Slot(tenant: string, workflow: string)

  datatype SkillVersion = SkillVersion(slot: Slot, version: nat, manifest: seq<ManifestRule>, active: bool, at: int)

  /** The rule tables; the logs list rules and skill versions in order of creation. */
  datatype Shelf = Shelf(
    verticals: map<string, string>,
    rules: map<Id, Rule>,
    ruleLog: seq<Id>,
    versions: map<Id, SkillVersion>,
    versionLog: seq<Id>,
    activeVersion: map<Slot, Id>)

  const EMPTY_SHELF := Shelf(map[], map[], [], map[], [], map[])

  const WORKFLOWS := {"quote_drafting", "enquiry_triage", "invoice_handling"}

  // ----- Manifests

  function Priority(scope: Scope): nat {
    match scope
    case CaseScope => 4
    case TenantScope => 3
    case VerticalScope => 2
    case DefaultScope => 1
  }

  predicate IsVisible(s: Shelf, r: Rule, slot: Slot) {
    && r.key.workflow == slot.workflow && r.active
    && (r.scope == DefaultScope
      || (r.scope == VerticalScope && slot.tenant in s.verticals && r.vertical == s.verticals[slot.tenant])
      || r.key.tenant == slot.tenant)
  }

  function Entry(id: Id, r: Rule): ManifestRule {
    ManifestRule(id, r.scope, r.version, r.key.decisionType, r.conditions, r.action, Priority(r.scope))
  }

  predicate ManifestLess(a: ManifestRule, b: ManifestRule) {
    if a.priority != b.priority then a.priority > b.priority else a.rule < b.rule
  }

  /** The manifest entries of the rules a tenant sees, in order of promotion. */
  function Entries(s: Shelf, log: seq<Id>, slot: Slot): seq<ManifestRule> {
    if log == [] then []
    else
      var last := log[|log| - 1];
      Entries(s, log[..|log| - 1], slot)
        + (if last in s.rules && IsVisible(s, s.rules[last], slot) then [Entry(last, s.rules[last])] else [])
  }

  function BuildManifest(s: Shelf, slot: Slot): seq<ManifestRule> {
    Sort(ManifestLess, Entries(s, s.ruleLog, slot))
  }

  // ----- Promotion

  ghost predicate HasActive(rules: map<Id, Rule>, key: Key) {
    exists a :: a in rules && rules[a].key == key && rules[a].active
  }

  ghost function TheActive(rules: map<Id, Rule>, key: Key): (a: Id)
    requires HasActive(rules, key)
    ensures a in rules && rules[a].key == key && rules[a].active
  {
    var a :| a in rules && rules[a].key == key && rules[a].active;
    a
  }

  function Deprecate(rules: map<Id, Rule>, key: Key): map<Id, Rule> {
    map i | i in rules :: if rules[i].key == key then rules[i].(active := false) else rules[i]
  }

  ghost function NewRule(s: Shelf, c: Candidate, candidate: Id, reviewer: string, now: int): Rule {
    var has := HasActive(s.rules, c.key);
    Rule(c.key, c.conditions, c.action, c.scope, "",
      if has then s.rules[TheActive(s.rules, c.key)].version + 1 else 1,
      if has then Some(TheActive(s.rules, c.key)) else None,
      candidate, reviewer, now, true)
  }

  ghost function AddRule(s: Shelf, c: Candidate, candidate: Id, reviewer: string, rule: Id, now: int): Shelf {
    s.(rules := Deprecate(s.rules, c.key)[rule := NewRule(s, c, candidate, reviewer, now)],
      ruleLog := s.ruleLog + [rule])
  }

  function DeprecateVersions(versions: map<Id, SkillVersion>, slot: Slot): map<Id, SkillVersion> {
    map i | i in versions :: if versions[i].slot == slot then versions[i].(active := false) else versions[i]
  }

  /** Store a skill version as the active one of its slot. */
  function AddVersion(s: Shelf, v: SkillVersion, id: Id): Shelf {
    s.(versions := DeprecateVersions(s.versions, v.slot)[id := v], versionLog := s.versionLog + [id],
       activeVersion := s.activeVersion[v.slot := id])
  }

  function NextVersion(s: Shelf, slot: Slot): nat {
    if slot in s.activeVersion && s.activeVersion[slot] in s.versions
    then s.versions[s.activeVersion[slot]].version + 1
    else 1
  }

  /** createSkillVersion: freeze the rules now visible to the slot. */
  function Publish(s: Shelf, slot: Slot, id: Id, now: int): Shelf {
    AddVersion(s, SkillVersion(slot, NextVersion(s, slot), BuildManifest(s, slot), true, now), id)
  }

  ghost function Promote(s: Shelf, c: Candidate, candidate: Id, reviewer: string, rule: Id, version: Id,
      now: int): Shelf {
    Publish(AddRule(s, c, candidate, reviewer, rule, now), Slot(c.key.tenant, c.key.workflow), version, now)
  }

  function FirstVersion(slot: Slot, now: int): SkillVersion {
    SkillVersion(slot, 1, [], true, now)
  }

  function Register(s: Shelf, tenant: string, vertical: string): Shelf {
    s.(verticals := s.verticals[tenant := vertical])
  }

  /** The skill versions a new tenant starts with. */
  function Provision(s: Shelf, tenant: string, vertical: string, quote: Id, triage: Id, invoice: Id, now: int): Shelf {
    var a := Register(s, tenant, vertical);
    var b := AddVersion(a, FirstVersion(Slot(tenant, "quote_drafting"), now), quote);
    var c := AddVersion(b, FirstVersion(Slot(tenant, "enquiry_triage"), now), triage);
    AddVersion(c, FirstVersion(Slot(tenant, "invoice_handling"), now), invoice)
  }

  // ----- Decisions

  function WorkflowDecision(workflow: string): (string, string) {
    if workflow == "invoice_handling" then ("tax_treatment", "apply_gst")
    else if workflow == "enquiry_triage" then ("route_or_reply", "draft_reply")
    else ("send_or_hold", "send_quote")
  }

  predicate Fires(r: ManifestRule, workflow: string, payload: Payload) {
    r.decisionType == WorkflowDecision(workflow).0 && Matches(payload, r.conditions)
  }

  /** The action of the first rule that fires, else the workflow's default; and whether a rule fired. */
  function Decide(workflow: string, payload: Payload, manifest: seq<ManifestRule>): (string, bool) {
    if manifest == [] then (WorkflowDecision(workflow).1, false)
    else if Fires(manifest[0], workflow, payload) then (manifest[0].action, true)
    else Decide(workflow, payload, manifest[1..])
  }

  // ----- What holds in every reachable state

  /** The rules of one key, oldest first. */
  function Chain(rules: map<Id, Rule>, log: seq<Id>, key: Key): seq<Id> {
    if log == [] then []
    else
      var last := log[|log| - 1];
      Chain(rules, log[..|log| - 1], key) + (if last in rules && rules[last].key == key then [last] else [])
  }

  /** The skill versions of one slot, oldest first. */
  function History(versions: map<Id, SkillVersion>, log: seq<Id>, slot: Slot): seq<Id> {
    if log == [] then []
    else
      var last := log[|log| - 1];
      History(versions, log[..|log| - 1], slot)
        + (if last in versions && versions[last].slot == slot then [last] else [])
  }

  ghost predicate LogsComplete(s: Shelf) {
    && NoDuplicates(s.ruleLog) && (forall i :: i in s.rules <==> i in s.ruleLog)
    && NoDuplicates(s.versionLog) && (forall i :: i in s.versions <==> i in s.versionLog)
  }

  /** Rule i of a chain has version i + 1, supersedes rule i - 1, and only the last is active. */
  ghost predicate IsChainLink(s: Shelf, chain: seq<Id>, i: nat)
    requires i < |chain|
  {
    && chain[i] in s.rules
    && s.rules[chain[i]].version == i + 1
    && s.rules[chain[i]].supersedes == (if i == 0 then None else Some(chain[i - 1]))
    && (s.rules[chain[i]].active <==> i == |chain| - 1)
  }

  ghost predicate ChainsLinear(s: Shelf) {
    forall key: Key, i: nat :: i < |Chain(s.rules, s.ruleLog, key)| ==>
      IsChainLink(s, Chain(s.rules, s.ruleLog, key), i)
  }

  /** Version i of a slot's history is numbered i + 1 and only the last is active. */
  ghost predicate IsHistoryEntry(s: Shelf, history: seq<Id>, i: nat)
    requires i < |history|
  {
    && history[i] in s.versions
    && s.versions[history[i]].version == i + 1
    && (s.versions[history[i]].active <==> i == |history| - 1)
  }

  ghost predicate HistoriesLinear(s: Shelf) {
    && (forall slot: Slot, i: nat :: i < |History(s.versions, s.versionLog, slot)| ==>
      IsHistoryEntry(s, History(s.versions, s.versionLog, slot), i))
    && (forall slot: Slot :: PointsToLast(s, slot, History(s.versions, s.versionLog, slot)))
  }

  ghost predicate PointsToLast(s: Shelf, slot: Slot, history: seq<Id>) {
    && (slot in s.activeVersion <==> history != [])
    && (history != [] ==> s.activeVersion[slot] == history[|history| - 1])
  }

  /** Verticals are named, promoted rules carry none. */
  ghost predicate VerticalsApart(s: Shelf) {
    && (forall t :: t in s.verticals ==> s.verticals[t] != "")
    && (forall i :: i in s.rules ==> s.rules[i].vertical == "")
  }

  ghost predicate ShelfInv(s: Shelf) {
    LogsComplete(s) && ChainsLinear(s) && HistoriesLinear(s) && VerticalsApart(s)
  }

  /** The rule is active and everybody sees it in the workflow. */
  predicate IsForEverybody(s: Shelf, i: Id, workflow: string) {
    i in s.rules && s.rules[i].active && s.rules[i].scope == DefaultScope && s.rules[i].key.workflow == workflow
  }

  /** No other tenant has ever promoted a rule meant for everybody. */
  ghost predicate NoForeignDefaults(s: Shelf, tenant: string) {
    forall i :: i in s.rules && s.rules[i].scope == DefaultScope ==> s.rules[i].key.tenant == tenant
  }

  /** The manifest the slot decides by. */
  function Published(s: Shelf, slot: Slot): Option<seq<ManifestRule>> {
    if slot in s.activeVersion && s.activeVersion[slot] in s.versions
    then Some(s.versions[s.activeVersion[slot]].manifest)
    else None
  }

  /** The manifest the slot decides by is exactly the rules visible to it now. */
  ghost predicate IsSynced(s: Shelf, slot: Slot) {
    Published(s, slot).Some? ==> Published(s, slot).value == BuildManifest(s, slot)
  }

  // ----- Chains

  lemma {:induction false} ChainFrame(a: map<Id, Rule>, b: map<Id, Rule>, log: seq<Id>, key: Key)
    requires forall i :: i in log ==> (i in a <==> i in b) && (i in a && i in b ==> a[i].key == b[i].key)
    ensures Chain(a, log, key) == Chain(b, log, key)
  {
    if log != [] {
      assert forall i :: i in log[..|log| - 1] ==> i in log;
      ChainFrame(a, b, log[..|log| - 1], key);
      assert log[|log| - 1] in log;
    }
  }

  lemma {:induction false} ChainElements(rules: map<Id, Rule>, log: seq<Id>, key: Key)
    ensures forall i :: i in Chain(rules, log, key) <==> i in log && i in rules && rules[i].key == key
  {
    if log != [] {
      ChainElements(rules, log[..|log| - 1], key);
      assert log == log[..|log| - 1] + [log[|log| - 1]];
    }
  }

  /** The active rule of a key, if any, is the last of its chain. */
  lemma ActiveIsLast(s: Shelf, key: Key)
    requires LogsComplete(s) && ChainsLinear(s)
    ensures var chain := Chain(s.rules, s.ruleLog, key);
      && (HasActive(s.rules, key) <==> chain != [])
      && (chain != [] ==> forall a :: a in s.rules && s.rules[a].key == key && s.rules[a].active ==>
        a == chain[|chain| - 1])
      && (chain != [] ==> s.rules[TheActive(s.rules, key)].version == |chain|)
  {
    var chain := Chain(s.rules, s.ruleLog, key);
    ChainElements(s.rules, s.ruleLog, key);
    forall a | a in s.rules && s.rules[a].key == key && s.rules[a].active
      ensures chain != [] && a == chain[|chain| - 1]
    {
      assert a in chain;
      var i: nat :| i < |chain| && chain[i] == a;
      assert IsChainLink(s, chain, i);
    }
    if chain != [] {
      assert IsChainLink(s, chain, |chain| - 1);
      assert chain[|chain| - 1] in chain;
    }
  }

  lemma AddRuleChain(s: Shelf, c: Candidate, candidate: Id, reviewer: string, rule: Id, now: int, key: Key)
    requires LogsComplete(s) && rule !in s.rules
    ensures var v := AddRule(s, c, candidate, reviewer, rule, now);
      Chain(v.rules, v.ruleLog, key) == Chain(s.rules, s.ruleLog, key) + (if key == c.key then [rule] else [])
  {
    var v := AddRule(s, c, candidate, reviewer, rule, now);
    assert v.ruleLog[..|v.ruleLog| - 1] == s.ruleLog;
    ChainFrame(v.rules, s.rules, s.ruleLog, key);
  }

  /** A link stays one: the active rule of the key, always the last, is deprecated just when the chain grows. */
  lemma OldLinkStays(s: Shelf, c: Candidate, candidate: Id, reviewer: string, rule: Id, now: int, chain: seq<Id>,
      key: Key, i: nat)
    requires rule !in s.rules && i < |chain| && IsChainLink(s, chain, i) && s.rules[chain[i]].key == key
    ensures IsChainLink(AddRule(s, c, candidate, reviewer, rule, now),
      chain + (if key == c.key then [rule] else []), i)
  {
    hide NewRule;
    var longer := chain + (if key == c.key then [rule] else []);
    assert longer[i] == chain[i] && (i > 0 ==> longer[i - 1] == chain[i - 1]);
  }

  /** The new rule supersedes the last of its chain. */
  lemma NewLinkIsLast(s: Shelf, c: Candidate, candidate: Id, reviewer: string, rule: Id, now: int)
    requires LogsComplete(s) && ChainsLinear(s)
    ensures var chain := Chain(s.rules, s.ruleLog, c.key);
      IsChainLink(AddRule(s, c, candidate, reviewer, rule, now), chain + [rule], |chain|)
  {
    var chain := Chain(s.rules, s.ruleLog, c.key);
    ActiveIsLast(s, c.key);
    hide Chain, LogsComplete, ChainsLinear;
    assert (chain + [rule])[|chain|] == rule;
  }

  lemma AddRuleKeepsLinks(s: Shelf, c: Candidate, candidate: Id, reviewer: string, rule: Id, now: int, key: Key, i: nat)
    requires LogsComplete(s) && ChainsLinear(s) && rule !in s.rules
    requires i < |Chain(s.rules, s.ruleLog, key)| + (if key == c.key then 1 else 0)
    ensures var v := AddRule(s, c, candidate, reviewer, rule, now);
      i < |Chain(v.rules, v.ruleLog, key)| && IsChainLink(v, Chain(v.rules, v.ruleLog, key), i)
  {
    hide AddRule;
    var chain := Chain(s.rules, s.ruleLog, key);
    AddRuleChain(s, c, candidate, reviewer, rule, now, key);
    ChainElements(s.rules, s.ruleLog, key);
    if i < |chain| {
      assert IsChainLink(s, chain, i) && chain[i] in chain;
      OldLinkStays(s, c, candidate, reviewer, rule, now, chain, key, i);
    } else {
      NewLinkIsLast(s, c, candidate, reviewer, rule, now);
    }
  }

  lemma AddRuleKeeps(s: Shelf, c: Candidate, candidate: Id, reviewer: string, rule: Id, now: int)
    requires ShelfInv(s) && rule !in s.rules
    ensures ShelfInv(AddRule(s, c, candidate, reviewer, rule, now))
  {
    var v := AddRule(s, c, candidate, reviewer, rule, now);
    assert rule !in s.ruleLog;
    forall key: Key, i: nat | i < |Chain(v.rules, v.ruleLog, key)|
      ensures IsChainLink(v, Chain(v.rules, v.ruleLog, key), i)
    {
      AddRuleChain(s, c, candidate, reviewer, rule, now, key);
      AddRuleKeepsLinks(s, c, candidate, reviewer, rule, now, key, i);
    }
    HistoriesIgnoreRules(s, v);
  }

  lemma HistoriesIgnoreRules(s: Shelf, v: Shelf)
    requires HistoriesLinear(s)
    requires v.versions == s.versions && v.versionLog == s.versionLog && v.activeVersion == s.activeVersion
    ensures HistoriesLinear(v)
  {
    forall slot: Slot, i: nat | i < |History(v.versions, v.versionLog, slot)|
      ensures IsHistoryEntry(v, History(v.versions, v.versionLog, slot), i)
    {
      assert IsHistoryEntry(s, History(s.versions, s.versionLog, slot), i);
    }
    forall slot: Slot ensures PointsToLast(v, slot, History(v.versions, v.versionLog, slot)) {
      assert PointsToLast(s, slot, History(s.versions, s.versionLog, slot));
    }
  }

  // ----- Histories

  lemma {:induction false} HistoryFrame(a: map<Id, SkillVersion>, b: map<Id, SkillVersion>, log: seq<Id>, slot: Slot)
    requires forall i :: i in log ==> (i in a <==> i in b) && (i in a && i in b ==> a[i].slot == b[i].slot)
    ensures History(a, log, slot) == History(b, log, slot)
  {
    if log != [] {
      assert forall i :: i in log[..|log| - 1] ==> i in log;
      HistoryFrame(a, b, log[..|log| - 1], slot);
      assert log[|log| - 1] in log;
    }
  }

  lemma {:induction false} HistoryElements(versions: map<Id, SkillVersion>, log: seq<Id>, slot: Slot)
    ensures forall i :: i in History(versions, log, slot) <==> i in log && i in versions && versions[i].slot == slot
  {
    if log != [] {
      HistoryElements(versions, log[..|log| - 1], slot);
      assert log == log[..|log| - 1] + [log[|log| - 1]];
    }
  }

  lemma ActiveSlot(s: Shelf, slot: Slot)
    requires HistoriesLinear(s) && slot in s.activeVersion
    ensures s.activeVersion[slot] in s.versions && s.versions[s.activeVersion[slot]].slot == slot
  {
    var history := History(s.versions, s.versionLog, slot);
    assert PointsToLast(s, slot, history);
    HistoryElements(s.versions, s.versionLog, slot);
    assert history[|history| - 1] in history;
  }

  lemma AddVersionHistory(s: Shelf, v: SkillVersion, id: Id, slot: Slot)
    requires LogsComplete(s) && id !in s.versions
    ensures var u := AddVersion(s, v, id);
      History(u.versions, u.versionLog, slot) ==
        History(s.versions, s.versionLog, slot) + (if slot == v.slot then [id] else [])
  {
    var u := AddVersion(s, v, id);
    assert u.versionLog[..|u.versionLog| - 1] == s.versionLog;
    HistoryFrame(u.versions, s.versions, s.versionLog, slot);
  }

  lemma NextVersionCounts(s: Shelf, slot: Slot)
    requires HistoriesLinear(s)
    ensures NextVersion(s, slot) == |History(s.versions, s.versionLog, slot)| + 1
  {
    var history := History(s.versions, s.versionLog, slot);
    assert PointsToLast(s, slot, history);
    if history != [] {
      assert IsHistoryEntry(s, history, |history| - 1);
    }
  }

  lemma AddVersionKeepsEntries(s: Shelf, v: SkillVersion, id: Id, slot: Slot)
    requires LogsComplete(s) && HistoriesLinear(s) && id !in s.versions
    requires v.active && v.version == NextVersion(s, v.slot)
    ensures var u := AddVersion(s, v, id);
      var after := History(u.versions, u.versionLog, slot);
      (forall i: nat :: i < |after| ==> IsHistoryEntry(u, after, i)) && PointsToLast(u, slot, after)
  {
    var u, before := AddVersion(s, v, id), History(s.versions, s.versionLog, slot);
    var after := History(u.versions, u.versionLog, slot);
    AddVersionHistory(s, v, id, slot);
    HistoryElements(s.versions, s.versionLog, slot);
    NextVersionCounts(s, v.slot);
    assert PointsToLast(s, slot, before);
    forall i: nat | i < |after| ensures IsHistoryEntry(u, after, i) {
      if i < |before| {
        assert IsHistoryEntry(s, before, i);
        assert before[i] in before;
      }
    }
  }

  lemma AddVersionKeeps(s: Shelf, v: SkillVersion, id: Id)
    requires ShelfInv(s) && id !in s.versions && v.active && v.version == NextVersion(s, v.slot)
    ensures ShelfInv(AddVersion(s, v, id))
  {
    var u := AddVersion(s, v, id);
    assert id !in s.versionLog;
    forall slot: Slot
      ensures (forall i: nat :: i < |History(u.versions, u.versionLog, slot)| ==>
          IsHistoryEntry(u, History(u.versions, u.versionLog, slot), i))
        && PointsToLast(u, slot, History(u.versions, u.versionLog, slot))
    {
      AddVersionKeepsEntries(s, v, id, slot);
    }
    forall key: Key, i: nat | i < |Chain(u.rules, u.ruleLog, key)|
      ensures IsChainLink(u, Chain(u.rules, u.ruleLog, key), i)
    {
      assert IsChainLink(s, Chain(s.rules, s.ruleLog, key), i);
    }
  }

  // ----- What a slot sees and what it has published

  /** Two shelves a slot cannot tell apart by the rules it sees. */
  ghost predicate SameVisible(a: Shelf, b: Shelf, log: seq<Id>, slot: Slot) {
    forall i :: i in log ==>
      && ((i in a.rules && IsVisible(a, a.rules[i], slot)) <==> (i in b.rules && IsVisible(b, b.rules[i], slot)))
      && (i in a.rules && i in b.rules && IsVisible(a, a.rules[i], slot) ==>
        Entry(i, a.rules[i]) == Entry(i, b.rules[i]))
  }

  lemma {:induction false} EntriesFrame(a: Shelf, b: Shelf, log: seq<Id>, slot: Slot)
    requires SameVisible(a, b, log, slot)
    ensures Entries(a, log, slot) == Entries(b, log, slot)
  {
    if log != [] {
      assert forall i :: i in log[..|log| - 1] ==> i in log;
      EntriesFrame(a, b, log[..|log| - 1], slot);
      assert log[|log| - 1] in log;
    }
  }

  /** A rule of another tenant or workflow is out of sight unless it is meant for everybody. */
  lemma OutOfSight(s: Shelf, r: Rule, slot: Slot)
    requires VerticalsApart(s) && r.vertical == ""
    requires slot != Slot(r.key.tenant, r.key.workflow)
    requires r.scope == DefaultScope ==> r.key.tenant == slot.tenant
    ensures !IsVisible(s, r, slot)
  {
  }

  /** Storing a skill version leaves the rules alone and publishes its manifest to its own slot only. */
  lemma AddVersionPublishes(s: Shelf, v: SkillVersion, id: Id, slot: Slot)
    requires id !in s.versions && (slot in s.activeVersion ==> s.activeVersion[slot] in s.versions)
    ensures var u := AddVersion(s, v, id);
      && Published(u, slot) == (if slot == v.slot then Some(v.manifest) else Published(s, slot))
      && BuildManifest(u, slot) == BuildManifest(s, slot)
      && (slot in u.activeVersion ==> u.activeVersion[slot] in u.versions)
  {
    EntriesFrame(AddVersion(s, v, id), s, s.ruleLog, slot);
  }

  /** A promotion keeps the tables linear and leaves its own slot in step, whatever happened before. */
  lemma PromoteKeeps(s: Shelf, c: Candidate, candidate: Id, reviewer: string, rule: Id, version: Id, now: int)
    requires ShelfInv(s) && rule !in s.rules && version !in s.versions
    ensures var v := Promote(s, c, candidate, reviewer, rule, version, now);
      var slot := Slot(c.key.tenant, c.key.workflow);
      ShelfInv(v) && Published(v, slot) == Some(BuildManifest(v, slot))
  {
    var mid := AddRule(s, c, candidate, reviewer, rule, now);
    var slot := Slot(c.key.tenant, c.key.workflow);
    AddRuleKeeps(s, c, candidate, reviewer, rule, now);
    var next := SkillVersion(slot, NextVersion(mid, slot), BuildManifest(mid, slot), true, now);
    AddVersionKeeps(mid, next, version);
    if slot in mid.activeVersion {
      ActiveSlot(mid, slot);
    }
    AddVersionPublishes(mid, next, version, slot);
  }

  lemma RegisterKeeps(s: Shelf, tenant: string, vertical: string)
    requires ShelfInv(s) && vertical != ""
    ensures ShelfInv(Register(s, tenant, vertical))
  {
    var a := Register(s, tenant, vertical);
    HistoriesIgnoreRules(s, a);
    forall key: Key, i: nat | i < |Chain(a.rules, a.ruleLog, key)|
      ensures IsChainLink(a, Chain(a.rules, a.ruleLog, key), i)
    {
      assert IsChainLink(s, Chain(s.rules, s.ruleLog, key), i);
    }
  }

  /** A newcomer changes nothing of what anybody sees. */
  lemma RegisterIsUnseen(s: Shelf, tenant: string, vertical: string, slot: Slot)
    requires VerticalsApart(s) && tenant !in s.verticals && vertical != ""
    ensures BuildManifest(Register(s, tenant, vertical), slot) == BuildManifest(s, slot)
  {
    EntriesFrame(Register(s, tenant, vertical), s, s.ruleLog, slot);
  }

  /** A tenant without rules of its own sees those for everybody. */
  lemma NewcomerSees(s: Shelf, slot: Slot)
    requires LogsComplete(s) && VerticalsApart(s) && forall i :: i in s.rules ==> s.rules[i].key.tenant != slot.tenant
    ensures BuildManifest(s, slot) == [] <==> forall r :: !IsForEverybody(s, r, slot.workflow)
  {
    hide BuildManifest, ManifestLess;
    BuildManifestElements(s, slot);
    if BuildManifest(s, slot) == [] {
      forall r ensures !IsForEverybody(s, r, slot.workflow) {
        assert r in s.rules ==> Entry(r, s.rules[r]) !in BuildManifest(s, slot);
      }
    } else {
      assert BuildManifest(s, slot)[0] in BuildManifest(s, slot);
      assert IsForEverybody(s, BuildManifest(s, slot)[0].rule, slot.workflow);
    }
  }

  lemma ProvisionPublishes(s: Shelf, tenant: string, vertical: string, quote: Id, triage: Id, invoice: Id, now: int,
      slot: Slot)
    requires HistoriesLinear(s)
    requires quote !in s.versions && triage !in s.versions && invoice !in s.versions
    requires quote != triage && triage != invoice && quote != invoice
    ensures var v := Provision(s, tenant, vertical, quote, triage, invoice, now);
      && Published(v, slot) ==
        (if slot.tenant == tenant && slot.workflow in WORKFLOWS then Some([]) else Published(s, slot))
      && BuildManifest(v, slot) == BuildManifest(Register(s, tenant, vertical), slot)
  {
    var a := Register(s, tenant, vertical);
    var q, t, i := Slot(tenant, "quote_drafting"), Slot(tenant, "enquiry_triage"), Slot(tenant, "invoice_handling");
    if slot in s.activeVersion {
      ActiveSlot(s, slot);
    }
    hide HistoriesLinear, BuildManifest;
    var b := AddVersion(a, FirstVersion(q, now), quote);
    var c := AddVersion(b, FirstVersion(t, now), triage);
    AddVersionPublishes(a, FirstVersion(q, now), quote, slot);
    AddVersionPublishes(b, FirstVersion(t, now), triage, slot);
    AddVersionPublishes(c, FirstVersion(i, now), invoice, slot);
  }

  /** The first versions of a new tenant are empty: a slot starts in step exactly when its workflow has no
   *  active rule for everybody. Everybody else stays in step or out of it.
   */
  lemma ProvisionSync(s: Shelf, tenant: string, vertical: string, quote: Id, triage: Id, invoice: Id, now: int,
      slot: Slot)
    requires ShelfInv(s) && tenant !in s.verticals && vertical != ""
    requires quote !in s.versions && triage !in s.versions && invoice !in s.versions
    requires quote != triage && triage != invoice && quote != invoice
    requires forall i :: i in s.rules ==> s.rules[i].key.tenant != tenant
    ensures IsSynced(Provision(s, tenant, vertical, quote, triage, invoice, now), slot) <==>
      if slot.tenant == tenant && slot.workflow in WORKFLOWS
      then forall r :: !IsForEverybody(s, r, slot.workflow)
      else IsSynced(s, slot)
  {
    hide Provision, BuildManifest, IsForEverybody, Register, Published;
    ProvisionPublishes(s, tenant, vertical, quote, triage, invoice, now, slot);
    RegisterIsUnseen(s, tenant, vertical, slot);
    if slot.tenant == tenant {
      NewcomerSees(s, slot);
    }
  }

  lemma ProvisionKeeps(s: Shelf, tenant: string, vertical: string, quote: Id, triage: Id, invoice: Id, now: int)
    requires ShelfInv(s) && tenant !in s.verticals && vertical != ""
    requires quote !in s.versions && triage !in s.versions && invoice !in s.versions
    requires quote != triage && triage != invoice && quote != invoice
    requires forall slot: Slot :: slot in s.activeVersion ==> slot.tenant != tenant
    ensures ShelfInv(Provision(s, tenant, vertical, quote, triage, invoice, now))
  {
    var a := Register(s, tenant, vertical);
    RegisterKeeps(s, tenant, vertical);
    hide ShelfInv;
    var q, t, i := Slot(tenant, "quote_drafting"), Slot(tenant, "enquiry_triage"), Slot(tenant, "invoice_handling");
    AddVersionKeeps(a, FirstVersion(q, now), quote);
    var b := AddVersion(a, FirstVersion(q, now), quote);
    AddVersionKeeps(b, FirstVersion(t, now), triage);
    var c := AddVersion(b, FirstVersion(t, now), triage);
    AddVersionKeeps(c, FirstVersion(i, now), invoice);
  }

  // ----- What it means

  /** Promotions of one key form one chain of versions 1..n, each superseding the one before, with
   *  exactly the newest active; skill versions of one slot are numbered 1..m, exactly the newest is
   *  active, and the active pointer names it.
   */
  lemma VersionLaw(s: Shelf, key: Key, slot: Slot)
    requires ShelfInv(s)
    ensures var chain := Chain(s.rules, s.ruleLog, key);
      && (forall r :: r in chain <==> r in s.rules && s.rules[r].key == key)
      && (forall i: nat :: i < |chain| ==> IsChainLink(s, chain, i))
    ensures var history := History(s.versions, s.versionLog, slot);
      && (forall v :: v in history <==> v in s.versions && s.versions[v].slot == slot)
      && (forall i: nat :: i < |history| ==> IsHistoryEntry(s, history, i))
      && PointsToLast(s, slot, history)
  {
    ChainElements(s.rules, s.ruleLog, key);
    HistoryElements(s.versions, s.versionLog, slot);
  }

  /** A tenant sees the active rules of its workflow that are its own or for everybody, and no others. */
  lemma VisibleExactly(s: Shelf, r: Id, slot: Slot)
    requires VerticalsApart(s) && r in s.rules
    ensures IsVisible(s, s.rules[r], slot) <==>
      s.rules[r].active && s.rules[r].key.workflow == slot.workflow
      && (s.rules[r].key.tenant == slot.tenant || s.rules[r].scope == DefaultScope)
  {
  }

  lemma ManifestLessIsWeakOrder()
    ensures WeakOrder(ManifestLess)
  {
  }

  lemma {:induction false} EntriesElements(s: Shelf, log: seq<Id>, slot: Slot)
    ensures forall e :: e in Entries(s, log, slot) <==>
      e.rule in log && e.rule in s.rules && IsVisible(s, s.rules[e.rule], slot) && e == Entry(e.rule, s.rules[e.rule])
  {
    if log != [] {
      EntriesElements(s, log[..|log| - 1], slot);
      assert log == log[..|log| - 1] + [log[|log| - 1]];
    }
  }

  /** Entries of different rules are told apart by priority and id. */
  lemma EntriesSeparated(s: Shelf, slot: Slot)
    ensures Separates(ManifestLess, Entries(s, s.ruleLog, slot))
  {
    EntriesElements(s, s.ruleLog, slot);
  }

  /** The manifest does not depend on the order in which the store lists the visible rules. */
  lemma ManifestIgnoresListing(s: Shelf, slot: Slot, listed: seq<ManifestRule>, sorted: seq<ManifestRule>)
    requires multiset(listed) == multiset(Entries(s, s.ruleLog, slot))
    requires IsSortOf(ManifestLess, listed, sorted)
    ensures sorted == BuildManifest(s, slot)
  {
    ManifestLessIsWeakOrder();
    SortIsSortOf(ManifestLess, Entries(s, s.ruleLog, slot));
    EntriesSeparated(s, slot);
    SameSeparation(Entries(s, s.ruleLog, slot), BuildManifest(s, slot));
    SortUnique(ManifestLess, BuildManifest(s, slot), sorted);
  }

  lemma SameSeparation(a: seq<ManifestRule>, b: seq<ManifestRule>)
    requires multiset(a) == multiset(b) && Separates(ManifestLess, a)
    ensures Separates(ManifestLess, b)
    ensures forall e :: e in a <==> e in b
  {
    forall e ensures e in a <==> e in b {
      assert e in multiset(a) <==> e in multiset(b);
    }
  }

  /** The rule decides for the slot: it is visible, speaks of this decision and its conditions hold. */
  ghost predicate Applies(s: Shelf, slot: Slot, r: Id, payload: Payload) {
    && r in s.rules && IsVisible(s, s.rules[r], slot)
    && s.rules[r].key.decisionType == WorkflowDecision(slot.workflow).0
    && Matches(payload, s.rules[r].conditions)
  }

  /** One case, one tenant, one vertical, everybody: each is narrower than the next. */
  predicate Narrower(a: Scope, b: Scope) {
    match a
    case CaseScope => b != CaseScope
    case TenantScope => b == VerticalScope || b == DefaultScope
    case VerticalScope => b == DefaultScope
    case DefaultScope => false
  }

  /** Narrower scope first, then smaller id. */
  predicate TakesPrecedence(s: Shelf, a: Id, b: Id)
    requires a in s.rules && b in s.rules
  {
    Narrower(s.rules[a].scope, s.rules[b].scope) || (s.rules[a].scope == s.rules[b].scope && a <= b)
  }

  ghost predicate IsBest(s: Shelf, slot: Slot, r: Id, payload: Payload) {
    Applies(s, slot, r, payload) && forall other :: Applies(s, slot, other, payload) ==> TakesPrecedence(s, r, other)
  }

  lemma {:induction false} DecideFirst(workflow: string, payload: Payload, manifest: seq<ManifestRule>) returns (k: nat)
    ensures var (action, matched) := Decide(workflow, payload, manifest);
      && k <= |manifest| && (matched <==> k < |manifest|)
      && (forall i :: 0 <= i < k ==> !Fires(manifest[i], workflow, payload))
      && (if matched then Fires(manifest[k], workflow, payload) && action == manifest[k].action
          else action == WorkflowDecision(workflow).1)
  {
    if manifest == [] || Fires(manifest[0], workflow, payload) {
      k := 0;
    } else {
      k := DecideFirst(workflow, payload, manifest[1..]);
      k := k + 1;
    }
  }

  /** A decision on a manifest in step with the rules takes the applying rule of highest priority, then
   *  least id; without an applying rule it takes the workflow's default.
   */
  lemma DecideTakesBest(s: Shelf, slot: Slot, payload: Payload)
    requires LogsComplete(s)
    ensures var (action, matched) := Decide(slot.workflow, payload, BuildManifest(s, slot));
      && (matched <==> exists r :: Applies(s, slot, r, payload))
      && (matched ==> exists r :: IsBest(s, slot, r, payload) && action == s.rules[r].action)
      && (!matched ==> action == WorkflowDecision(slot.workflow).1)
  {
    var manifest := BuildManifest(s, slot);
    BuildManifestElements(s, slot);
    var k := DecideFirst(slot.workflow, payload, manifest);
    forall r | Applies(s, slot, r, payload)
      ensures k < |manifest| && TakesPrecedence(s, manifest[k].rule, r)
    {
      var j := PlaceOf(s, slot, r);
      assert Fires(manifest[j], slot.workflow, payload);
      assert manifest[k] in manifest;
      assert j > k ==> !ManifestLess(manifest[j], manifest[k]);
    }
    if k < |manifest| {
      assert manifest[k] in manifest;
      assert IsBest(s, slot, manifest[k].rule, payload);
    }
  }

  /** Where no rule applies, the three workflows decide as before anything was taught. */
  lemma UntaughtDecision(s: Shelf, slot: Slot, payload: Payload)
    requires LogsComplete(s) && slot.workflow in WORKFLOWS && forall r :: !Applies(s, slot, r, payload)
    ensures Decide(slot.workflow, payload, BuildManifest(s, slot)) ==
      (if slot.workflow == "quote_drafting" then "send_quote"
       else if slot.workflow == "enquiry_triage" then "draft_reply"
       else "apply_gst", false)
  {
    DecideTakesBest(s, slot, payload);
  }

  /** The manifest holds one entry for each visible rule, in order. */
  lemma BuildManifestElements(s: Shelf, slot: Slot)
    requires LogsComplete(s)
    ensures Sorted(ManifestLess, BuildManifest(s, slot))
    ensures forall e :: e in BuildManifest(s, slot) <==>
      e.rule in s.rules && IsVisible(s, s.rules[e.rule], slot) && e == Entry(e.rule, s.rules[e.rule])
  {
    ManifestLessIsWeakOrder();
    SortIsSortOf(ManifestLess, Entries(s, s.ruleLog, slot));
    EntriesSeparated(s, slot);
    SameSeparation(Entries(s, s.ruleLog, slot), BuildManifest(s, slot));
    EntriesElements(s, s.ruleLog, slot);
  }

  lemma PlaceOf(s: Shelf, slot: Slot, r: Id) returns (j: nat)
    requires LogsComplete(s) && r in s.rules && IsVisible(s, s.rules[r], slot)
    ensures j < |BuildManifest(s, slot)| && BuildManifest(s, slot)[j] == Entry(r, s.rules[r])
  {
    BuildManifestElements(s, slot);
    assert Entry(r, s.rules[r]) in BuildManifest(s, slot);
    j :| 0 <= j < |BuildManifest(s, slot)| && BuildManifest(s, slot)[j] == Entry(r, s.rules[r]);
  }

  // ----- Where the manifest law stops

  /** A promotion touches what everybody sees: the new rule is for everybody, or the one it replaces was. */
  ghost predicate ReachesEverybody(s: Shelf, c: Candidate) {
    c.scope == DefaultScope || (HasActive(s.rules, c.key) && s.rules[TheActive(s.rules, c.key)].scope == DefaultScope)
  }

  lemma QuietPromotion(s: Shelf, c: Candidate, candidate: Id, reviewer: string, rule: Id, now: int, slot: Slot)
    requires ShelfInv(s) && rule !in s.rules && slot != Slot(c.key.tenant, c.key.workflow)
    requires slot.workflow != c.key.workflow || !ReachesEverybody(s, c)
    ensures BuildManifest(AddRule(s, c, candidate, reviewer, rule, now), slot) == BuildManifest(s, slot)
  {
    var v := AddRule(s, c, candidate, reviewer, rule, now);
    assert v.ruleLog[..|v.ruleLog| - 1] == s.ruleLog && rule !in s.ruleLog;
    assert !IsVisible(v, v.rules[rule], slot) by {
      if slot.workflow == c.key.workflow {
        OutOfSight(s, v.rules[rule], slot);
      }
    }
    forall i | i in s.ruleLog
      ensures ((i in v.rules && IsVisible(v, v.rules[i], slot)) <==> (i in s.rules && IsVisible(s, s.rules[i], slot)))
        && (i in v.rules && i in s.rules && IsVisible(v, v.rules[i], slot) ==>
          Entry(i, v.rules[i]) == Entry(i, s.rules[i]))
    {
      if s.rules[i].key == c.key && s.rules[i].active && slot.workflow == c.key.workflow {
        ActiveIsLast(s, c.key);
        OutOfSight(s, s.rules[i], slot);
      }
    }
    EntriesFrame(v, s, s.ruleLog, slot);
    assert Entries(v, v.ruleLog, slot) == Entries(s, s.ruleLog, slot);
  }

  lemma LoudPromotion(s: Shelf, c: Candidate, candidate: Id, reviewer: string, rule: Id, now: int, slot: Slot)
    requires ShelfInv(s) && rule !in s.rules && slot != Slot(c.key.tenant, c.key.workflow)
    requires slot.workflow == c.key.workflow && ReachesEverybody(s, c)
    ensures BuildManifest(AddRule(s, c, candidate, reviewer, rule, now), slot) != BuildManifest(s, slot)
  {
    var v := AddRule(s, c, candidate, reviewer, rule, now);
    AddRuleKeeps(s, c, candidate, reviewer, rule, now);
    hide ShelfInv, BuildManifest, NewRule;
    if c.scope == DefaultScope {
      SeenOnlyIn(v, s, rule, slot);
    } else {
      SeenOnlyIn(s, v, TheActive(s.rules, c.key), slot);
    }
  }

  /** Two manifests differ when a rule is visible in one of the states only. */
  lemma SeenOnlyIn(s: Shelf, v: Shelf, i: Id, slot: Slot)
    requires LogsComplete(s) && LogsComplete(v)
    requires i in s.rules && IsVisible(s, s.rules[i], slot) && !(i in v.rules && IsVisible(v, v.rules[i], slot))
    ensures BuildManifest(s, slot) != BuildManifest(v, slot)
  {
    hide BuildManifest, IsVisible;
    BuildManifestElements(s, slot);
    BuildManifestElements(v, slot);
    assert Entry(i, s.rules[i]) in BuildManifest(s, slot);
  }

  /** A promotion leaves another slot's manifest in step exactly when it does not reach everybody. */
  lemma SyncLostExactly(s: Shelf, c: Candidate, candidate: Id, reviewer: string, rule: Id, version: Id, now: int,
      slot: Slot)
    requires ShelfInv(s) && rule !in s.rules && version !in s.versions
    requires slot in s.activeVersion && IsSynced(s, slot) && slot != Slot(c.key.tenant, c.key.workflow)
    ensures IsSynced(Promote(s, c, candidate, reviewer, rule, version, now), slot) <==>
      slot.workflow != c.key.workflow || !ReachesEverybody(s, c)
  {
    var mid, mine := AddRule(s, c, candidate, reviewer, rule, now), Slot(c.key.tenant, c.key.workflow);
    var v := Promote(s, c, candidate, reviewer, rule, version, now);
    ActiveSlot(s, slot);
    AddVersionPublishes(mid, SkillVersion(mine, NextVersion(mid, mine), BuildManifest(mid, mine), true, now), version,
      slot);
    assert Published(v, slot) == Some(BuildManifest(s, slot)) && BuildManifest(v, slot) == BuildManifest(mid, slot);
    hide BuildManifest;
    if slot.workflow != c.key.workflow || !ReachesEverybody(s, c) {
      QuietPromotion(s, c, candidate, reviewer, rule, now, slot);
    } else {
      LoudPromotion(s, c, candidate, reviewer, rule, now, slot);
    }
  }
}
