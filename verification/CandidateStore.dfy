/** The candidate tables as an object, with the loops of mergeCandidate (internal/app/app.go) and of
 *  ListCandidatesByConditions (internal/store/memory/store.go), proved against `Learning`.
 */
module CandidateStore {
  import opened Conditions
  import opened Confidence
  import opened Learning
  import opened Sorting

  predicate IdLess(a: Id, b: Id) {
    a < b
  }

  function AgeDays(now: int, lastSeenAt: int): real {
    (now - lastSeenAt) as real / 86400.0
  }

  class CandidateStore {
    const math: Math
    var signals: set<SignalId>
    var corrections: map<Id, Correction>
    var correctionKey: map<CorrectionKey, Id>
    var candidates: map<Id, Candidate>
    ghost var log: seq<Id>

    ghost function State(): Learn
      reads this
    {
      Learn(signals, corrections, correctionKey, candidates, log)
    }

    ghost predicate Valid()
      reads this
    {
      math.Lawful() && LearnInv(State())
    }

    constructor (math: Math)
      requires math.Lawful()
      ensures Valid() && State() == EMPTY_LEARN
    {
      this.math := math;
      signals, corrections, correctionKey, candidates, log := {}, map[], map[], map[], [];
    }

    /** The siblings of a key in order of id, whatever order the map is scanned in. */
    method ListCandidatesByConditions(key: Key) returns (out: seq<Id>)
      ensures forall m :: m in out <==> m in candidates && IsSibling(candidates[m], key)
      ensures forall i, j :: 0 <= i < j < |out| ==> out[i] < out[j]
    {
      out := [];
      var rest := candidates.Keys;
      while rest != {}
        invariant rest <= candidates.Keys
        invariant forall m :: m in out <==> m in candidates && m !in rest && IsSibling(candidates[m], key)
        invariant NoDuplicates(out)
        decreases |rest|
      {
        var m :| m in rest;
        if IsSibling(candidates[m], key) {
          out := out + [m];
        }
        rest := rest - {m};
      }
      SortIds(out);
      out := Sort(IdLess, out);
    }

    method MergeCandidate(id: Id, c: Correction, newId: Id, now: int)
      requires math.Lawful() && CandidatesOk(State()) && ActionsDiffer(State()) && newId !in candidates
      modifies this`candidates, this`log
      ensures State() == Merge(old(State()), id, c, newId, now)
    {
      if c.conditions == [] || c.action == "" {
        return;
      }
      var key := KeyOf(c);
      var siblings := ListCandidatesByConditions(key);
      var match_: Option<Id> := None;
      var contradicting: seq<Id> := [];
      var n := 0;
      while n < |siblings|
        invariant 0 <= n <= |siblings|
        invariant NoDuplicates(contradicting)
        invariant forall m :: m in contradicting <==> m in siblings[..n] && candidates[m].action != c.action
        invariant match_.None? ==> forall m :: m in siblings[..n] ==> candidates[m].action != c.action
        invariant match_.Some? ==> match_.value in siblings[..n] && candidates[match_.value].action == c.action
      {
        assert siblings[..n + 1] == siblings[..n] + [siblings[n]];
        if candidates[siblings[n]].action == c.action {
          match_ := Some(siblings[n]);
        } else {
          contradicting := contradicting + [siblings[n]];
        }
        n := n + 1;
      }
      assert siblings[..n] == siblings;
      if match_.None? {
        OpenNew(id, c, newId, now, contradicting);
      } else {
        assert TheMatch(candidates, key, c.action) == match_.value;
        AddTo(match_.value, id, c, now);
      }
    }

    /** The branch without a match: contradict every sibling, then open a candidate. */
    method OpenNew(id: Id, c: Correction, newId: Id, now: int, contradicting: seq<Id>)
      requires newId !in candidates && NoDuplicates(contradicting)
      requires forall m :: m in contradicting <==> m in candidates && IsSibling(candidates[m], KeyOf(c))
      modifies this`candidates, this`log
      ensures State() == OpenCandidate(old(State()), id, c, newId, now)
    {
      ContradictAll(contradicting, now);
      assert candidates == ContradictSiblings(old(candidates), KeyOf(c));
      var scope := if c.scopeHint.Some? then c.scopeHint.value else CaseScope;
      var candidate := Candidate.Candidate(KeyOf(c), CanonicalizeConditions(c.conditions), c.action, scope,
        1, 0, [id], [c.caseRun], Status.Candidate, now, now, None);
      var confidence := CandidateConfidence(math, 1, 0, 1, 1, false, AgeDays(now, now));
      candidate := candidate.(status := CandidateStatus(confidence, 1, 0));
      if candidate.status == UnderReview {
        candidate := candidate.(underReviewAt := Some(now));
      }
      candidates := candidates[newId := candidate];
      log := log + [newId];
    }

    method ContradictAll(contradicting: seq<Id>, now: int)
      requires NoDuplicates(contradicting) && forall m :: m in contradicting ==> m in candidates
      modifies this`candidates
      ensures candidates == map m | m in old(candidates) ::
        if m in contradicting then Contradicted(old(candidates)[m]) else old(candidates)[m]
    {
      ghost var before := candidates;
      var n := 0;
      while n < |contradicting|
        invariant 0 <= n <= |contradicting|
        invariant candidates.Keys == before.Keys
        invariant forall m :: m in before ==>
          candidates[m] == if m in contradicting[..n] then Contradicted(before[m]) else before[m]
      {
        var m := contradicting[n];
        assert contradicting[..n + 1] == contradicting[..n] + [m];
        assert m in contradicting && m !in contradicting[..n];
        var conflict := candidates[m];
        conflict := conflict.(contradicting := conflict.contradicting + 1);
        var confidence := CandidateConfidence(math, conflict.evidence, conflict.contradicting,
          |ElementsOf(conflict.cases)|, 1, false, AgeDays(now, conflict.lastSeenAt));
        ContradictedIsCandidate(confidence, conflict.evidence, conflict.contradicting);
        conflict := conflict.(status := CandidateStatus(confidence, conflict.evidence, conflict.contradicting));
        candidates := candidates[m := conflict];
        n := n + 1;
      }
      assert contradicting[..n] == contradicting;
    }

    /** The branch with a match: one more piece of evidence. */
    method AddTo(m: Id, id: Id, c: Correction, now: int)
      requires math.Lawful() && m in candidates && CandidateOk(candidates[m])
      modifies this`candidates
      ensures candidates == old(candidates)[m := WithEvidence(old(candidates)[m], id, c.caseRun, now)]
    {
      var candidate := candidates[m];
      if id in candidate.corrections {
        return;
      }
      var cases := AppendIfMissing(candidate.cases, c.caseRun);
      var evidence := candidate.evidence + 1;
      var confidence := CandidateConfidence(math, evidence, candidate.contradicting,
        |ElementsOf(cases)|, 1, false, AgeDays(now, now));
      var nextStatus := CandidateStatus(confidence, evidence, candidate.contradicting);
      StatusThreshold(math, evidence, candidate.contradicting, |ElementsOf(cases)|, false);
      candidate := candidate.(corrections := candidate.corrections + [id], cases := cases,
        evidence := evidence, lastSeenAt := now);
      if candidate.status != UnderReview && nextStatus == UnderReview {
        candidate := candidate.(underReviewAt := Some(now));
      }
      candidates := candidates[m := candidate.(status := nextStatus)];
    }

    /** `created` tells the caller whether the correction was new. */
    method PersistCorrection(id: Id, k: CorrectionKey, c: Correction, newId: Id, now: int) returns (created: bool)
      requires Valid() && id !in corrections && newId !in candidates
      modifies this
      ensures Valid() && State() == Correct(old(State()), id, k, c, newId, now)
      ensures created <==> k !in old(correctionKey)
    {
      created := k !in correctionKey;
      if !created {
        return;
      }
      StoreKeeps(State(), id, k, c);
      corrections := corrections[id := c];
      correctionKey := correctionKey[k := id];
      MergeKeeps(State(), id, c, newId, now);
      MergeCandidate(id, c, newId, now);
    }

    /** `recorded` tells the caller whether there is an approval or a new correction to act on. */
    method PersistSignal(s: SignalId, id: Id, k: CorrectionKey, c: Correction, newId: Id, now: int)
        returns (recorded: bool)
      requires Valid() && id !in corrections && newId !in candidates
      modifies this
      ensures Valid() && State() == Receive(old(State()), s, id, k, c, newId, now)
      ensures recorded <==> s !in old(signals) && (c.button == Approve || k !in old(correctionKey))
    {
      recorded := s !in signals;
      if !recorded {
        return;
      }
      SeenKeeps(State(), s);
      signals := signals + {s};
      if c.button == Approve {
        return;
      }
      recorded := PersistCorrection(id, k, c, newId, now);
    }

    method MarkPromoted(m: Id)
      requires Valid() && m in candidates
      modifies this`candidates
      ensures Valid() && State() == PromoteIn(old(State()), m)
    {
      PromoteInKeeps(State(), m);
      candidates := candidates[m := candidates[m].(status := Status.Promoted)];
    }
  }

  lemma SortIds(ids: seq<Id>)
    requires NoDuplicates(ids)
    ensures var out := Sort(IdLess, ids);
      && (forall m :: m in out <==> m in ids)
      && forall i, j :: 0 <= i < j < |out| ==> out[i] < out[j]
  {
    var out := Sort(IdLess, ids);
    SortIsSortOf(IdLess, ids);
    forall m ensures m in out <==> m in ids {
      assert m in multiset(out) <==> m in multiset(ids);
    }
    forall i, j | 0 <= i < j < |out| ensures out[i] < out[j] {
      DistinctCount(ids, out[i]);
      if out[i] == out[j] {
        CountsTwice(out, i, j);
      }
    }
  }
}
