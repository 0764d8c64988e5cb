/** The rule tables as an object: the scanning loops of internal/store/memory/store.go and the
 *  promotion and decision steps of internal/app/app.go, proved against `Rules`.
 */
module RuleStore {
  import opened Conditions
  import opened Learning
  import opened Rules
  import opened Sorting

  /** evaluateDecision's loop: the first rule that fires decides. */
  method EvaluateDecision(workflow: string, payload: Payload, manifest: seq<ManifestRule>)
      returns (action: string, ruleMatched: bool)
    ensures (action, ruleMatched) == Decide(workflow, payload, manifest)
  {
    var (decisionType, defaultAction) := WorkflowDecision(workflow);
    var n := 0;
    while n < |manifest|
      invariant 0 <= n <= |manifest|
      invariant Decide(workflow, payload, manifest) == Decide(workflow, payload, manifest[n..])
    {
      var rule := manifest[n];
      assert manifest[n..][1..] == manifest[n + 1..];
      if rule.decisionType == decisionType {
        var matched := ConditionsMatch(payload, rule.conditions);
        if matched {
          return rule.action, true;
        }
      }
      n := n + 1;
    }
    return defaultAction, false;
  }

  ghost predicate IsActiveRule(rules: map<Id, Rule>, i: Id, key: Key) {
    i in rules && rules[i].key == key && rules[i].active
  }

  ghost predicate NoneActive(rules: map<Id, Rule>, unseen: set<Id>, key: Key) {
    forall i :: i in rules && i !in unseen ==> !IsActiveRule(rules, i, key)
  }

  /** What the scan found is the active rule, of which there is at most one. */
  lemma ScanFindsActive(s: Shelf, key: Key, found: Option<Id>)
    requires LogsComplete(s) && ChainsLinear(s)
    requires found.None? ==> NoneActive(s.rules, {}, key)
    requires found.Some? ==> IsActiveRule(s.rules, found.value, key)
    ensures found.Some? <==> HasActive(s.rules, key)
    ensures found.Some? ==> found.value == TheActive(s.rules, key)
  {
    ActiveIsLast(s, key);
    if HasActive(s.rules, key) {
      assert IsActiveRule(s.rules, TheActive(s.rules, key), key);
    }
  }

  /** How the store orders a listing: by rank of scope, then by promotion time, both falling. */
  function ListRank(rules: map<Id, Rule>, i: Id): (int, int) {
    if i in rules then (Priority(rules[i].scope), rules[i].at) else (0, 0)
  }

  function ListedBefore(rules: map<Id, Rule>): (Id, Id) -> bool {
    (a: Id, b: Id) =>
      if ListRank(rules, a).0 != ListRank(rules, b).0 then ListRank(rules, a).0 > ListRank(rules, b).0
      else ListRank(rules, a).1 > ListRank(rules, b).1
  }

  /** Narrower rules come before wider ones, and of the same scope the later promoted before the earlier. */
  ghost predicate ListedInOrder(rules: map<Id, Rule>, out: seq<Id>) {
    forall i, j :: 0 <= i < j < |out| && out[i] in rules && out[j] in rules ==>
      && !Narrower(rules[out[j]].scope, rules[out[i]].scope)
      && (rules[out[i]].scope == rules[out[j]].scope ==> rules[out[j]].at <= rules[out[i]].at)
  }

  lemma SortedIsListed(rules: map<Id, Rule>, out: seq<Id>)
    requires Sorted(ListedBefore(rules), out)
    ensures ListedInOrder(rules, out)
  {
    forall i, j | 0 <= i < j < |out| && out[i] in rules && out[j] in rules
      ensures !Narrower(rules[out[j]].scope, rules[out[i]].scope)
        && (rules[out[i]].scope == rules[out[j]].scope ==> rules[out[j]].at <= rules[out[i]].at)
    {
      assert !ListedBefore(rules)(out[j], out[i]);
    }
  }

  lemma SortListing(rules: map<Id, Rule>, out: seq<Id>)
    requires NoDuplicates(out)
    ensures var sorted := Sort(ListedBefore(rules), out);
      NoDuplicates(sorted) && Sorted(ListedBefore(rules), sorted) && forall i :: i in sorted <==> i in out
  {
    var sorted := Sort(ListedBefore(rules), out);
    SortIsSortOf(ListedBefore(rules), out);
    forall i ensures i in sorted <==> i in out {
      assert i in multiset(sorted) <==> i in multiset(out);
    }
    forall i, j | 0 <= i < j < |sorted| ensures sorted[i] != sorted[j] {
      if sorted[i] == sorted[j] {
        DistinctCount(out, sorted[i]);
        CountsTwice(sorted, i, j);
      }
    }
  }

  /** The rules of the key are deprecated, those not yet visited aside. */
  ghost predicate DeprecatedBut(rules: map<Id, Rule>, before: map<Id, Rule>, rest: set<Id>, key: Key) {
    && rules.Keys == before.Keys
    && forall i :: i in before ==>
      rules[i] == if i !in rest && before[i].key == key then before[i].(active := false) else before[i]
  }

  lemma DeprecateOne(rules: map<Id, Rule>, before: map<Id, Rule>, rest: set<Id>, key: Key, id: Id)
    requires DeprecatedBut(rules, before, rest, key) && id in rest && id in before
    ensures rules[id] == before[id]
    ensures before[id].key == key ==> DeprecatedBut(rules[id := before[id].(active := false)], before, rest - {id}, key)
    ensures before[id].key != key || !before[id].active ==> DeprecatedBut(rules, before, rest - {id}, key)
  {
  }

  lemma NothingDeprecated(rules: map<Id, Rule>, key: Key)
    ensures DeprecatedBut(rules, rules, rules.Keys, key)
  {
  }

  lemma AllDeprecated(rules: map<Id, Rule>, before: map<Id, Rule>, key: Key)
    requires DeprecatedBut(rules, before, {}, key)
    ensures rules == Deprecate(before, key)
  {
  }

  class RuleStore {
    var tenants: map<string, string>
    var validated: map<Id, Rule>
    var skillVersions: map<Id, SkillVersion>
    var activeSV: map<Slot, Id>
    ghost var ruleLog: seq<Id>
    ghost var versionLog: seq<Id>

    ghost function State(): Shelf
      reads this
    {
      Shelf(tenants, validated, ruleLog, skillVersions, versionLog, activeSV)
    }

    ghost predicate Valid()
      reads this
    {
      ShelfInv(State())
    }

    constructor ()
      ensures Valid() && State() == EMPTY_SHELF
    {
      tenants, validated, skillVersions, activeSV := map[], map[], map[], map[];
      ruleLog, versionLog := [], [];
      new;
      EmptyShelfOk();
    }

    method DeprecateActiveRule(key: Key) returns (supersedes: Option<Id>, version: nat)
      modifies this`validated
      ensures validated == Deprecate(old(validated), key)
      ensures supersedes.None? ==> NoneActive(old(validated), {}, key) && version == 1
      ensures supersedes.Some? ==> IsActiveRule(old(validated), supersedes.value, key)
      ensures supersedes.Some? ==> version == old(validated)[supersedes.value].version + 1
    {
      ghost var before := validated;
      NothingDeprecated(before, key);
      supersedes, version := None, 1;
      var rest := validated.Keys;
      while rest != {}
        invariant rest <= before.Keys && DeprecatedBut(validated, before, rest, key)
        invariant supersedes.None? ==> version == 1 && NoneActive(before, rest, key)
        invariant supersedes.Some? ==>
          IsActiveRule(before, supersedes.value, key) && version == before[supersedes.value].version + 1
        decreases |rest|
      {
        var id :| id in rest;
        var rule := validated[id];
        DeprecateOne(validated, before, rest, key, id);
        if rule.key == key && rule.active {
          validated := validated[id := rule.(active := false)];
          supersedes := Some(id);
          version := rule.version + 1;
        }
        rest := rest - {id};
      }
      AllDeprecated(validated, before, key);
    }

    /** The visible active rules, narrowest scope and newest first; nothing for an unknown tenant. */
    method ListVisibleValidatedRules(slot: Slot) returns (found: bool, out: seq<Id>)
      ensures found <==> slot.tenant in tenants
      ensures found ==> NoDuplicates(out) && ListedInOrder(validated, out)
      ensures found ==> forall i :: i in out <==> i in validated && IsVisible(State(), validated[i], slot)
      ensures !found ==> out == []
    {
      if slot.tenant !in tenants {
        return false, [];
      }
      out := [];
      var rest := validated.Keys;
      while rest != {}
        invariant rest <= validated.Keys
        invariant NoDuplicates(out)
        invariant forall i :: i in out <==> i in validated && i !in rest && IsVisible(State(), validated[i], slot)
        decreases |rest|
      {
        var id :| id in rest;
        var rule := validated[id];
        if rule.key.workflow == slot.workflow && rule.active {
          if rule.scope == DefaultScope
            || (rule.scope == VerticalScope && rule.vertical == tenants[slot.tenant])
            || rule.key.tenant == slot.tenant
          {
            out := out + [id];
          }
        }
        rest := rest - {id};
      }
      SortListing(validated, out);
      SortedIsListed(validated, Sort(ListedBefore(validated), out));
      return true, Sort(ListedBefore(validated), out);
    }

    method StoreSkillVersion(v: SkillVersion, id: Id)
      modifies this`skillVersions, this`activeSV, this`versionLog
      ensures State() == AddVersion(old(State()), v, id)
    {
      ghost var before := skillVersions;
      var rest := skillVersions.Keys;
      while rest != {}
        invariant rest <= before.Keys && skillVersions.Keys == before.Keys
        invariant forall i :: i in before ==>
          skillVersions[i] == if i !in rest && before[i].slot == v.slot then before[i].(active := false) else before[i]
        invariant activeSV == old(activeSV) && versionLog == old(versionLog)
        decreases |rest|
      {
        var existing :| existing in rest;
        if skillVersions[existing].slot == v.slot && skillVersions[existing].active {
          skillVersions := skillVersions[existing := skillVersions[existing].(active := false)];
        }
        rest := rest - {existing};
      }
      assert skillVersions == DeprecateVersions(before, v.slot);
      skillVersions := skillVersions[id := v];
      activeSV := activeSV[v.slot := id];
      versionLog := versionLog + [id];
    }

    /** The visible rules as manifest entries, sorted. */
    method ManifestFor(slot: Slot) returns (manifest: seq<ManifestRule>)
      requires LogsComplete(State()) && slot.tenant in tenants
      ensures manifest == BuildManifest(State(), slot)
    {
      var _, rules := ListVisibleValidatedRules(slot);
      manifest := [];
      var n := 0;
      while n < |rules|
        invariant 0 <= n <= |rules| && |manifest| == n
        invariant forall k :: 0 <= k < n ==>
          rules[k] in validated && manifest[k] == Entry(rules[k], validated[rules[k]])
      {
        assert rules[n] in rules;
        manifest := manifest + [Entry(rules[n], validated[rules[n]])];
        n := n + 1;
      }
      SortedListing(State(), slot, rules, manifest);
      manifest := Sort(ManifestLess, manifest);
    }

    /** Fails, changing nothing, for an unknown tenant. */
    method CreateSkillVersion(slot: Slot, id: Id, now: int) returns (ok: bool)
      requires LogsComplete(State())
      modifies this`skillVersions, this`activeSV, this`versionLog
      ensures ok <==> slot.tenant in tenants
      ensures State() == if ok then Publish(old(State()), slot, id, now) else old(State())
    {
      if slot.tenant !in tenants {
        return false;
      }
      var version := 1;
      if slot in activeSV && activeSV[slot] in skillVersions {
        version := skillVersions[activeSV[slot]].version + 1;
      }
      var manifest := ManifestFor(slot);
      StoreSkillVersion(SkillVersion(slot, version, manifest, true, now), id);
      return true;
    }

    method PromoteRule(c: Candidate, candidate: Id, reviewer: string, rule: Id, version: Id, now: int)
      requires Valid() && rule !in validated && version !in skillVersions && c.key.tenant in tenants
      modifies this
      ensures Valid() && State() == Promote(old(State()), c, candidate, reviewer, rule, version, now)
    {
      hide BuildManifest, ChainsLinear, HistoriesLinear, Published;
      ghost var before := State();
      PromoteKeeps(before, c, candidate, reviewer, rule, version, now);
      AddRuleKeeps(before, c, candidate, reviewer, rule, now);
      var supersedes, number := DeprecateActiveRule(c.key);
      ScanFindsActive(before, c.key, supersedes);
      validated := validated[rule := Rule(c.key, c.conditions, c.action, c.scope, "", number, supersedes, candidate,
        reviewer, now, true)];
      ruleLog := ruleLog + [rule];
      assert State() == AddRule(before, c, candidate, reviewer, rule, now);
      var ok := CreateSkillVersion(Slot(c.key.tenant, c.key.workflow), version, now);
    }

    method ProvisionTenant(tenant: string, vertical: string, quote: Id, triage: Id, invoice: Id, now: int)
      requires Valid() && tenant !in tenants && vertical != ""
      requires quote !in skillVersions && triage !in skillVersions && invoice !in skillVersions
      requires quote != triage && triage != invoice && quote != invoice
      requires forall i :: i in validated ==> validated[i].key.tenant != tenant
      requires forall slot: Slot :: slot in activeSV ==> slot.tenant != tenant
      modifies this
      ensures Valid() && State() == Provision(old(State()), tenant, vertical, quote, triage, invoice, now)
    {
      ProvisionKeeps(State(), tenant, vertical, quote, triage, invoice, now);
      tenants := tenants[tenant := vertical];
      StoreSkillVersion(FirstVersion(Slot(tenant, "quote_drafting"), now), quote);
      StoreSkillVersion(FirstVersion(Slot(tenant, "enquiry_triage"), now), triage);
      StoreSkillVersion(FirstVersion(Slot(tenant, "invoice_handling"), now), invoice);
    }
  }

  lemma EmptyShelfOk()
    ensures ShelfInv(EMPTY_SHELF)
  {
  }

  lemma {:induction false} EntriesDistinct(s: Shelf, log: seq<Id>, slot: Slot)
    requires NoDuplicates(log)
    ensures NoDuplicates(Entries(s, log, slot))
  {
    if log != [] {
      EntriesDistinct(s, log[..|log| - 1], slot);
      EntriesElements(s, log[..|log| - 1], slot);
      assert log[|log| - 1] !in log[..|log| - 1];
    }
  }

  /** The entries of any listing of the visible rules are the entries in promotion order, permuted. */
  lemma ListedEntries(s: Shelf, slot: Slot, rules: seq<Id>, manifest: seq<ManifestRule>)
    requires LogsComplete(s) && NoDuplicates(rules) && |manifest| == |rules|
    requires forall i :: i in rules <==> i in s.rules && IsVisible(s, s.rules[i], slot)
    requires forall k :: 0 <= k < |rules| ==> rules[k] in s.rules && manifest[k] == Entry(rules[k], s.rules[rules[k]])
    ensures multiset(manifest) == multiset(Entries(s, s.ruleLog, slot))
  {
    EntriesDistinct(s, s.ruleLog, slot);
    EntriesElements(s, s.ruleLog, slot);
    forall e ensures e in manifest <==> e in Entries(s, s.ruleLog, slot) {
      if e in manifest {
        var k :| 0 <= k < |manifest| && manifest[k] == e;
        assert rules[k] in rules;
      }
      if e in Entries(s, s.ruleLog, slot) {
        var k :| 0 <= k < |rules| && rules[k] == e.rule;
        assert manifest[k] == e;
      }
    }
    SameElementsSameMultiset(manifest, Entries(s, s.ruleLog, slot));
  }

  /** Sorting any listing of the visible rules gives the manifest. */
  lemma SortedListing(s: Shelf, slot: Slot, rules: seq<Id>, manifest: seq<ManifestRule>)
    requires LogsComplete(s) && NoDuplicates(rules) && |manifest| == |rules|
    requires forall i :: i in rules <==> i in s.rules && IsVisible(s, s.rules[i], slot)
    requires forall k :: 0 <= k < |rules| ==> rules[k] in s.rules && manifest[k] == Entry(rules[k], s.rules[rules[k]])
    ensures Sort(ManifestLess, manifest) == BuildManifest(s, slot)
  {
    hide BuildManifest, Entries, Sort, IsVisible;
    ListedEntries(s, slot, rules, manifest);
    ManifestLessIsWeakOrder();
    SortIsSortOf(ManifestLess, manifest);
    ManifestIgnoresListing(s, slot, manifest, Sort(ManifestLess, manifest));
  }
}
