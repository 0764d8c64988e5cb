/** From corrections to rule candidates: persistSignal, persistCorrection and mergeCandidate of
 *  internal/app/app.go over the candidate tables of internal/store/memory/store.go.
 */
module Learning {
  import opened Conditions
  import opened Confidence
  import opened Sorting

  /** Identifiers are fixed-width hexadecimal, so their string order is the order of numbers. */
  type Id = nat

  datatype Option<+T> = None | Some(value: T)

  datatype Scope = CaseScope | TenantScope | VerticalScope | DefaultScope

  datatype Button = Approve | WrongFacts | WrongAction | MissingCondition | UseDifferentTemplate | AddNote

  /** What makes two candidates siblings. The hash is represented by what it hashes. */
  datatype Key = Key(tenant: string, workflow: string, decisionType: string, hash: seq<Encoded>)

  /** A stored correction. `conditions` and `action` are what its text parses to; the workflow and the
   *  decision type are those of its decision point, which never change.
   */
  datatype Correction = Correction(
    tenant: string, packet: Id, caseRun: Id, point: Id, workflow: string, decisionType: string,
    button: Button, conditions: seq<Condition>, action: string, scopeHint: Option<Scope>)

  datatype Candidate = Candidate(
    key: Key, conditions: seq<Condition>, action: string, scope: Scope,
    evidence: nat, contradicting: nat, corrections: seq<Id>, cases: seq<Id>,
    status: Status, createdAt: int, lastSeenAt: int, underReviewAt: Option<int>)

  /** The parts of the two message hashes, which identify a delivery and a correction. */
  datatype SignalId = SignalId(tenant: string, packet: Id, button: Button, rawMessage: string)

  datatype CorrectionKey = CorrectionKey(tenant: string, point: Id, packet: Id, button: Button, sourceMessage: string)

  /** The learning tables; `log` lists the candidates in order of creation. */
  datatype Learn = Learn(
    signals: set<SignalId>,
    corrections: map<Id, Correction>,
    correctionKeys: map<CorrectionKey, Id>,
    candidates: map<Id, Candidate>,
    log: seq<Id>)

  const EMPTY_LEARN := Learn({}, map[], map[], map[], [])

  // ----- Merging one correction

  predicate Parsed(c: Correction) {
    c.conditions != [] && c.action != ""
  }

  function KeyOf(c: Correction): Key {
    Key(c.tenant, c.workflow, c.decisionType, Map(Encode, CanonicalizeConditions(c.conditions)))
  }

  predicate IsSibling(c: Candidate, key: Key) {
    c.key == key && c.status != Rejected
  }

  predicate IsMatch(c: Candidate, key: Key, action: string) {
    IsSibling(c, key) && c.action == action
  }

  function AppendIfMissing(s: seq<Id>, x: Id): seq<Id> {
    if x in s then s else s + [x]
  }

  function ElementsOf(s: seq<Id>): set<Id> {
    set x | x in s
  }

  function StatusFor(evidence: nat, contradicting: nat, cases: seq<Id>): Status {
    if Ready(evidence, contradicting, |ElementsOf(cases)|) then UnderReview else Status.Candidate
  }

  function WithEvidence(c: Candidate, id: Id, caseRun: Id, now: int): Candidate {
    if id in c.corrections then c
    else
      var cases := AppendIfMissing(c.cases, caseRun);
      var status := StatusFor(c.evidence + 1, c.contradicting, cases);
      c.(corrections := c.corrections + [id], cases := cases, evidence := c.evidence + 1, lastSeenAt := now,
         underReviewAt := if c.status != UnderReview && status == UnderReview then Some(now) else c.underReviewAt,
         status := status)
  }

  /** A contradicted candidate falls back to plain candidate, whatever it was. */
  function Contradicted(c: Candidate): Candidate {
    c.(contradicting := c.contradicting + 1, status := Status.Candidate)
  }

  function ContradictSiblings(cands: map<Id, Candidate>, key: Key): map<Id, Candidate> {
    map i | i in cands :: if IsSibling(cands[i], key) then Contradicted(cands[i]) else cands[i]
  }

  function FirstCandidate(id: Id, c: Correction, now: int): Candidate {
    Candidate.Candidate(KeyOf(c), CanonicalizeConditions(c.conditions), c.action,
      if c.scopeHint.Some? then c.scopeHint.value else CaseScope,
      1, 0, [id], [c.caseRun], Status.Candidate, now, now, None)
  }

  ghost predicate HasMatch(cands: map<Id, Candidate>, key: Key, action: string) {
    exists m :: m in cands && IsMatch(cands[m], key, action)
  }

  ghost function TheMatch(cands: map<Id, Candidate>, key: Key, action: string): (m: Id)
    requires HasMatch(cands, key, action)
    ensures m in cands && IsMatch(cands[m], key, action)
  {
    var m :| m in cands && IsMatch(cands[m], key, action);
    m
  }

  ghost function AddEvidence(l: Learn, id: Id, c: Correction, now: int): Learn
    requires HasMatch(l.candidates, KeyOf(c), c.action)
  {
    var m := TheMatch(l.candidates, KeyOf(c), c.action);
    l.(candidates := l.candidates[m := WithEvidence(l.candidates[m], id, c.caseRun, now)])
  }

  function OpenCandidate(l: Learn, id: Id, c: Correction, newId: Id, now: int): Learn {
    l.(candidates := ContradictSiblings(l.candidates, KeyOf(c))[newId := FirstCandidate(id, c, now)],
      log := l.log + [newId])
  }

  ghost function Merge(l: Learn, id: Id, c: Correction, newId: Id, now: int): Learn {
    if !Parsed(c) then l
    else if HasMatch(l.candidates, KeyOf(c), c.action) then AddEvidence(l, id, c, now)
    else OpenCandidate(l, id, c, newId, now)
  }

  function Store(l: Learn, id: Id, k: CorrectionKey, c: Correction): Learn {
    l.(corrections := l.corrections[id := c], correctionKeys := l.correctionKeys[k := id])
  }

  /** persistCorrection: a correction whose key is known is ignored. */
  ghost function Correct(l: Learn, id: Id, k: CorrectionKey, c: Correction, newId: Id, now: int): Learn {
    if k in l.correctionKeys then l else Merge(Store(l, id, k, c), id, c, newId, now)
  }

  function MarkSeen(l: Learn, s: SignalId): Learn {
    l.(signals := l.signals + {s})
  }

  /** persistSignal: a signal seen before is ignored, an approval teaches nothing. */
  ghost function Receive(l: Learn, s: SignalId, id: Id, k: CorrectionKey, c: Correction, newId: Id, now: int): Learn {
    if s in l.signals then l
    else if c.button == Approve then MarkSeen(l, s)
    else Correct(MarkSeen(l, s), id, k, c, newId, now)
  }

  function PromoteIn(l: Learn, m: Id): Learn
    requires m in l.candidates
  {
    l.(candidates := l.candidates[m := l.candidates[m].(status := Status.Promoted)])
  }

  // ----- What holds in every reachable state

  /** The candidates of one key, oldest first. */
  function Siblings(cands: map<Id, Candidate>, log: seq<Id>, key: Key): seq<Id> {
    if log == [] then []
    else
      var last := log[|log| - 1];
      Siblings(cands, log[..|log| - 1], key) + (if last in cands && cands[last].key == key then [last] else [])
  }

  ghost predicate LogIsComplete(l: Learn) {
    NoDuplicates(l.log) && (forall i :: i in l.candidates <==> i in l.log)
  }

  /** Siblings recommend different actions. */
  ghost predicate ActionsDiffer(l: Learn) {
    forall i, j :: i in l.candidates && j in l.candidates && i != j ==>
      l.candidates[i].key != l.candidates[j].key || l.candidates[i].action != l.candidates[j].action
  }

  /** Each sibling has been contradicted once by every later one. */
  ghost predicate ContradictionsCounted(l: Learn) {
    forall key, i :: 0 <= i < |Siblings(l.candidates, l.log, key)| ==>
      var s := Siblings(l.candidates, l.log, key);
      s[i] in l.candidates && l.candidates[s[i]].contradicting == |s| - 1 - i
  }

  ghost predicate CandidateOk(c: Candidate) {
    && c.status != Rejected
    && (c.status != Status.Promoted ==> c.status == StatusFor(c.evidence, c.contradicting, c.cases))
    && (c.status == UnderReview ==> c.underReviewAt.Some?)
    && c.evidence == |c.corrections| >= 1
    && NoDuplicates(c.corrections) && NoDuplicates(c.cases)
  }

  ghost predicate CandidatesOk(l: Learn) {
    forall i :: i in l.candidates ==> CandidateOk(l.candidates[i])
  }

  ghost predicate IsEvidence(x: Correction, c: Candidate) {
    Parsed(x) && KeyOf(x) == c.key && x.action == c.action && x.caseRun in c.cases
  }

  /** A candidate's evidence is stored corrections for its own rule, over its own cases. */
  ghost predicate SourcesAgree(l: Learn, c: Candidate) {
    && (forall x :: x in c.corrections ==> x in l.corrections && IsEvidence(l.corrections[x], c))
    && (forall r :: r in c.cases ==>
      exists x :: x in c.corrections && x in l.corrections && l.corrections[x].caseRun == r)
  }

  ghost predicate SourcesStored(l: Learn) {
    forall i :: i in l.candidates ==> SourcesAgree(l, l.candidates[i])
  }

  ghost predicate IsCounted(l: Learn, x: Id) {
    exists i :: i in l.candidates && x in l.candidates[i].corrections
  }

  /** Every stored correction that parsed is evidence somewhere; `hand` is one not merged yet. */
  ghost predicate AllCounted(l: Learn, hand: set<Id>) {
    forall x :: x in l.corrections && x !in hand && Parsed(l.corrections[x]) ==> IsCounted(l, x)
  }

  ghost predicate LearnInvBut(l: Learn, hand: set<Id>) {
    && LogIsComplete(l)
    && ActionsDiffer(l)
    && ContradictionsCounted(l)
    && CandidatesOk(l)
    && SourcesStored(l)
    && AllCounted(l, hand)
  }

  ghost predicate LearnInv(l: Learn) {
    LearnInvBut(l, {})
  }

  // ----- The steps keep it

  /** Candidates may change in place as long as each keeps its key. */
  ghost predicate SameKeys(a: map<Id, Candidate>, b: map<Id, Candidate>, ids: seq<Id>) {
    forall i :: i in ids ==> (i in a <==> i in b) && (i in a && i in b ==> a[i].key == b[i].key)
  }

  lemma {:induction false} SiblingsFrame(a: map<Id, Candidate>, b: map<Id, Candidate>, log: seq<Id>, key: Key)
    requires SameKeys(a, b, log)
    ensures Siblings(a, log, key) == Siblings(b, log, key)
  {
    if log != [] {
      assert forall i :: i in log[..|log| - 1] ==> i in log;
      SiblingsFrame(a, b, log[..|log| - 1], key);
      assert log[|log| - 1] in log;
    }
  }

  lemma {:induction false} SiblingsElements(cands: map<Id, Candidate>, log: seq<Id>, key: Key)
    ensures forall i :: i in Siblings(cands, log, key) <==> i in log && i in cands && cands[i].key == key
  {
    if log != [] {
      SiblingsElements(cands, log[..|log| - 1], key);
      assert log == log[..|log| - 1] + [log[|log| - 1]];
    }
  }

  lemma StoreKeeps(l: Learn, id: Id, k: CorrectionKey, c: Correction)
    requires LearnInv(l) && id !in l.corrections
    ensures LearnInvBut(Store(l, id, k, c), {id})
  {
    var v := Store(l, id, k, c);
    forall i | i in v.candidates ensures SourcesAgree(v, v.candidates[i]) {
      assert SourcesAgree(l, l.candidates[i]);
    }
    forall x | x in v.corrections && x !in {id} && Parsed(v.corrections[x]) ensures IsCounted(v, x) {
      assert IsCounted(l, x);
    }
  }

  /** Replacing a candidate by one of the same key and action. */
  ghost predicate Replaces(l: Learn, m: Id, c: Candidate) {
    m in l.candidates && c.key == l.candidates[m].key && c.action == l.candidates[m].action
  }

  lemma ReplaceKeepsShape(l: Learn, m: Id, c: Candidate)
    requires LogIsComplete(l) && ActionsDiffer(l) && ContradictionsCounted(l)
    requires Replaces(l, m, c) && c.contradicting == l.candidates[m].contradicting
    ensures var v := l.(candidates := l.candidates[m := c]);
      LogIsComplete(v) && ActionsDiffer(v) && ContradictionsCounted(v)
  {
    var v := l.(candidates := l.candidates[m := c]);
    forall key ensures Siblings(v.candidates, v.log, key) == Siblings(l.candidates, l.log, key) {
      SiblingsFrame(v.candidates, l.candidates, l.log, key);
    }
  }

  lemma WithEvidenceOk(c: Candidate, id: Id, caseRun: Id, now: int)
    requires CandidateOk(c)
    ensures CandidateOk(WithEvidence(c, id, caseRun, now))
  {
  }

  lemma WithEvidenceSources(l: Learn, c: Candidate, id: Id, x: Correction, now: int)
    requires SourcesAgree(l, c) && id in l.corrections && l.corrections[id] == x
    requires Parsed(x) && KeyOf(x) == c.key && x.action == c.action
    ensures SourcesAgree(l, WithEvidence(c, id, x.caseRun, now))
  {
    var v := WithEvidence(c, id, x.caseRun, now);
    forall r | r in v.cases
      ensures exists y :: y in v.corrections && y in l.corrections && l.corrections[y].caseRun == r
    {
      if r in c.cases {
        var y :| y in c.corrections && y in l.corrections && l.corrections[y].caseRun == r;
        assert y in v.corrections;
      } else {
        assert id in v.corrections;
      }
    }
  }

  /** Replacing a candidate by one with the same key and action, more evidence and sound sources. */
  lemma ReplaceKeepsSources(l: Learn, m: Id, c: Candidate, hand: set<Id>)
    requires SourcesStored(l) && AllCounted(l, hand) && Replaces(l, m, c) && SourcesAgree(l, c)
    requires forall x :: x in l.candidates[m].corrections || x in hand ==> x in c.corrections
    ensures var v := l.(candidates := l.candidates[m := c]);
      SourcesStored(v) && AllCounted(v, {})
  {
    var v := l.(candidates := l.candidates[m := c]);
    forall i | i in v.candidates ensures SourcesAgree(v, v.candidates[i]) {
      assert SourcesAgree(l, if i == m then c else l.candidates[i]);
    }
    forall x | x in v.corrections && Parsed(v.corrections[x]) ensures IsCounted(v, x) {
      if x in hand {
        assert x in v.candidates[m].corrections;
      } else {
        var i :| i in l.candidates && x in l.candidates[i].corrections;
        assert x in v.candidates[i].corrections;
      }
    }
  }

  lemma AddEvidenceKeeps(l: Learn, id: Id, c: Correction, now: int)
    requires LearnInvBut(l, {id}) && id in l.corrections && l.corrections[id] == c && Parsed(c)
    requires HasMatch(l.candidates, KeyOf(c), c.action)
    ensures LearnInv(AddEvidence(l, id, c, now))
  {
    hide KeyOf, ContradictionsCounted, ActionsDiffer, LogIsComplete;
    var m := TheMatch(l.candidates, KeyOf(c), c.action);
    var before, after := l.candidates[m], WithEvidence(l.candidates[m], id, c.caseRun, now);
    assert CandidateOk(before) && SourcesAgree(l, before);
    WithEvidenceOk(before, id, c.caseRun, now);
    WithEvidenceSources(l, before, id, c, now);
    ReplaceKeepsShape(l, m, after);
    ReplaceKeepsSources(l, m, after, {id});
  }

  lemma PromoteInKeeps(l: Learn, m: Id)
    requires LearnInv(l) && m in l.candidates
    ensures LearnInv(PromoteIn(l, m))
  {
    var after := l.candidates[m].(status := Status.Promoted);
    assert SourcesAgree(l, l.candidates[m]);
    assert SourcesAgree(l, after);
    ReplaceKeepsShape(l, m, after);
    ReplaceKeepsSources(l, m, after, {});
  }

  lemma OpenKeepsCounts(l: Learn, id: Id, c: Correction, newId: Id, now: int)
    requires LogIsComplete(l) && ContradictionsCounted(l) && CandidatesOk(l) && newId !in l.candidates
    ensures ContradictionsCounted(OpenCandidate(l, id, c, newId, now))
  {
    var v, k := OpenCandidate(l, id, c, newId, now), KeyOf(c);
    forall key ensures Siblings(v.candidates, v.log, key) ==
      Siblings(l.candidates, l.log, key) + (if key == k then [newId] else [])
    {
      assert v.log[..|v.log| - 1] == l.log;
      SiblingsFrame(v.candidates, l.candidates, l.log, key);
    }
    forall key, i | 0 <= i < |Siblings(v.candidates, v.log, key)|
      ensures var s := Siblings(v.candidates, v.log, key);
        s[i] in v.candidates && v.candidates[s[i]].contradicting == |s| - 1 - i
    {
      var before := Siblings(l.candidates, l.log, key);
      SiblingsElements(l.candidates, l.log, key);
      if i < |before| {
        assert before[i] in before;
      }
    }
  }

  lemma ContradictedOk(c: Candidate)
    requires CandidateOk(c)
    ensures CandidateOk(Contradicted(c))
  {
  }

  lemma FirstCandidateOk(id: Id, c: Correction, now: int)
    ensures CandidateOk(FirstCandidate(id, c, now))
  {
    assert ElementsOf([c.caseRun]) == {c.caseRun};
  }

  lemma OpenKeepsCandidates(l: Learn, id: Id, c: Correction, newId: Id, now: int)
    requires CandidatesOk(l) && newId !in l.candidates
    ensures CandidatesOk(OpenCandidate(l, id, c, newId, now))
  {
    var v := OpenCandidate(l, id, c, newId, now);
    forall i | i in v.candidates ensures CandidateOk(v.candidates[i]) {
      if i == newId {
        FirstCandidateOk(id, c, now);
      } else {
        ContradictedOk(l.candidates[i]);
      }
    }
  }

  lemma OpenKeepsShape(l: Learn, id: Id, c: Correction, newId: Id, now: int)
    requires LogIsComplete(l) && ActionsDiffer(l) && CandidatesOk(l) && newId !in l.candidates
    requires !HasMatch(l.candidates, KeyOf(c), c.action)
    ensures var v := OpenCandidate(l, id, c, newId, now);
      LogIsComplete(v) && ActionsDiffer(v)
  {
    hide CanonicalizeConditions;
    assert newId !in l.log;
    assert forall i :: i in l.candidates && l.candidates[i].key == KeyOf(c) ==> IsSibling(l.candidates[i], KeyOf(c));
  }

  lemma OpenKeepsSources(l: Learn, id: Id, c: Correction, newId: Id, now: int)
    requires SourcesStored(l) && newId !in l.candidates
    requires id in l.corrections && l.corrections[id] == c && Parsed(c)
    ensures SourcesStored(OpenCandidate(l, id, c, newId, now))
  {
    var v := OpenCandidate(l, id, c, newId, now);
    forall i | i in v.candidates ensures SourcesAgree(v, v.candidates[i]) {
      if i == newId {
        assert id in v.candidates[i].corrections;
      } else {
        assert SourcesAgree(l, l.candidates[i]);
      }
    }
  }

  lemma OpenCountsAll(l: Learn, id: Id, c: Correction, newId: Id, now: int)
    requires AllCounted(l, {id}) && newId !in l.candidates
    ensures AllCounted(OpenCandidate(l, id, c, newId, now), {})
  {
    var v := OpenCandidate(l, id, c, newId, now);
    forall x | x in v.corrections && Parsed(v.corrections[x]) ensures IsCounted(v, x) {
      if x == id {
        assert id in v.candidates[newId].corrections;
      } else {
        var i :| i in l.candidates && x in l.candidates[i].corrections;
        assert x in v.candidates[i].corrections;
      }
    }
  }

  lemma MergeKeeps(l: Learn, id: Id, c: Correction, newId: Id, now: int)
    requires LearnInvBut(l, {id}) && id in l.corrections && l.corrections[id] == c && newId !in l.candidates
    ensures LearnInv(Merge(l, id, c, newId, now))
  {
    if Parsed(c) {
      if HasMatch(l.candidates, KeyOf(c), c.action) {
        AddEvidenceKeeps(l, id, c, now);
      } else {
        OpenKeepsCounts(l, id, c, newId, now);
        OpenKeepsShape(l, id, c, newId, now);
        OpenKeepsCandidates(l, id, c, newId, now);
        OpenKeepsSources(l, id, c, newId, now);
        OpenCountsAll(l, id, c, newId, now);
      }
    }
  }

  lemma ReceiveKeeps(l: Learn, s: SignalId, id: Id, k: CorrectionKey, c: Correction, newId: Id, now: int)
    requires LearnInv(l) && id !in l.corrections && newId !in l.candidates
    ensures LearnInv(Receive(l, s, id, k, c, newId, now))
  {
    var seen := MarkSeen(l, s);
    SeenKeeps(l, s);
    if s !in l.signals && c.button != Approve && k !in seen.correctionKeys {
      StoreKeeps(seen, id, k, c);
      MergeKeeps(Store(seen, id, k, c), id, c, newId, now);
    }
  }

  lemma SeenKeeps(l: Learn, s: SignalId)
    requires LearnInv(l)
    ensures LearnInv(MarkSeen(l, s))
  {
    var v := MarkSeen(l, s);
    forall i | i in v.candidates ensures SourcesAgree(v, v.candidates[i]) {
      assert SourcesAgree(l, l.candidates[i]);
    }
    forall x | x in v.corrections && Parsed(v.corrections[x]) ensures IsCounted(v, x) {
      assert IsCounted(l, x);
    }
  }

  // ----- What it means

  lemma {:induction false} SiblingsAreDistinct(cands: map<Id, Candidate>, log: seq<Id>, key: Key)
    requires NoDuplicates(log)
    ensures NoDuplicates(Siblings(cands, log, key))
  {
    if log != [] {
      SiblingsAreDistinct(cands, log[..|log| - 1], key);
      SiblingsElements(cands, log[..|log| - 1], key);
    }
  }

  /** The n siblings of a key recommend n different actions; the i-th created has been contradicted
   *  n - i times; only the last can be under review, and then it says since when.
   */
  lemma SiblingLaw(l: Learn, key: Key)
    requires LearnInv(l)
    ensures var s := Siblings(l.candidates, l.log, key);
      && (forall m :: m in s <==> m in l.candidates && l.candidates[m].key == key)
      && (forall i :: 0 <= i < |s| ==> l.candidates[s[i]].contradicting == |s| - 1 - i)
      && (forall i, j :: 0 <= i < j < |s| ==> l.candidates[s[i]].action != l.candidates[s[j]].action)
      && (forall i :: 0 <= i < |s| && l.candidates[s[i]].status == UnderReview ==>
        i == |s| - 1 && l.candidates[s[i]].underReviewAt.Some?)
  {
    var s := Siblings(l.candidates, l.log, key);
    SiblingsElements(l.candidates, l.log, key);
    SiblingsAreDistinct(l.candidates, l.log, key);
    forall i | 0 <= i < |s| ensures s[i] in l.candidates && CandidateOk(l.candidates[s[i]]) {
      assert s[i] in s;
    }
  }

  /** Exactly when a candidate that has not been promoted is under review. */
  lemma UnderReviewExactly(l: Learn, m: Id)
    requires LearnInv(l) && m in l.candidates && l.candidates[m].status != Status.Promoted
    ensures var c := l.candidates[m];
      c.status == UnderReview <==>
        c.contradicting == 0 && (c.evidence >= 4 || (c.evidence == 3 && |ElementsOf(c.cases)| >= 2))
  {
    assert CandidateOk(l.candidates[m]);
  }

  /** A correction, merged, supports the candidate or contradicts it. */
  ghost predicate BearsOn(l: Learn, c: Correction, m: Id)
    requires m in l.candidates
  {
    && Parsed(c) && KeyOf(c) == l.candidates[m].key
    && (c.action == l.candidates[m].action || !HasMatch(l.candidates, KeyOf(c), c.action))
  }

  lemma EvidenceOverwrites(l: Learn, id: Id, c: Correction, now: int, m: Id)
    requires LearnInvBut(l, {id}) && m in l.candidates && l.candidates[m].status == Status.Promoted
    requires HasMatch(l.candidates, KeyOf(c), c.action)
    requires forall i :: i in l.candidates ==> id !in l.candidates[i].corrections
    ensures AddEvidence(l, id, c, now).candidates[m].status != Status.Promoted <==>
      KeyOf(c) == l.candidates[m].key && c.action == l.candidates[m].action
  {
    hide CanonicalizeConditions;
    var t := TheMatch(l.candidates, KeyOf(c), c.action);
    assert l.candidates[t].key == KeyOf(c) && l.candidates[t].action == c.action;
    assert CandidateOk(l.candidates[t]);
  }

  lemma MergeOverwrites(l: Learn, id: Id, c: Correction, newId: Id, now: int, m: Id)
    requires LearnInvBut(l, {id}) && newId !in l.candidates
    requires m in l.candidates && l.candidates[m].status == Status.Promoted
    requires forall i :: i in l.candidates ==> id !in l.candidates[i].corrections
    ensures m in Merge(l, id, c, newId, now).candidates
    ensures Merge(l, id, c, newId, now).candidates[m].status != Status.Promoted <==> BearsOn(l, c, m)
  {
    hide AddEvidence, KeyOf;
    if Parsed(c) && HasMatch(l.candidates, KeyOf(c), c.action) {
      assert m in AddEvidence(l, id, c, now).candidates by {
        EvidenceKeepsCandidates(l, id, c, now);
      }
      EvidenceOverwrites(l, id, c, now, m);
    }
  }

  lemma EvidenceKeepsCandidates(l: Learn, id: Id, c: Correction, now: int)
    requires HasMatch(l.candidates, KeyOf(c), c.action)
    ensures AddEvidence(l, id, c, now).candidates.Keys == l.candidates.Keys
  {
  }

  /** A promoted candidate loses its status exactly to a new correction that bears on it. */
  lemma ReceiveOverwrites(l: Learn, s: SignalId, id: Id, k: CorrectionKey, c: Correction, newId: Id, now: int, m: Id)
    requires LearnInv(l) && id !in l.corrections && newId !in l.candidates && s !in l.signals
    requires m in l.candidates && l.candidates[m].status == Status.Promoted
    ensures var v := Receive(l, s, id, k, c, newId, now);
      && m in v.candidates
      && (v.candidates[m].status != Status.Promoted <==>
        c.button != Approve && k !in l.correctionKeys && BearsOn(l, c, m))
  {
    var seen := MarkSeen(l, s);
    SeenKeeps(l, s);
    forall i | i in l.candidates ensures id !in l.candidates[i].corrections {
      assert SourcesAgree(l, l.candidates[i]);
    }
    if c.button != Approve && k !in l.correctionKeys {
      StoreKeeps(seen, id, k, c);
      hide LearnInv, LearnInvBut, Merge, KeyOf;
      MergeOverwrites(Store(seen, id, k, c), id, c, newId, now, m);
    }
  }

  /** No correction is evidence twice. */
  lemma SourcesAreDisjoint(l: Learn, i: Id, j: Id, x: Id)
    requires LearnInv(l) && i in l.candidates && j in l.candidates
    requires x in l.candidates[i].corrections && x in l.candidates[j].corrections
    ensures i == j
  {
    assert SourcesAgree(l, l.candidates[i]) && SourcesAgree(l, l.candidates[j]);
  }

  function EvidenceTotal(cands: map<Id, Candidate>, log: seq<Id>, tenant: string): nat {
    if log == [] then 0
    else
      var last := log[|log| - 1];
      EvidenceTotal(cands, log[..|log| - 1], tenant)
        + (if last in cands && cands[last].key.tenant == tenant then cands[last].evidence else 0)
  }

  function CountedBy(cands: map<Id, Candidate>, log: seq<Id>, tenant: string): set<Id> {
    if log == [] then {}
    else
      var last := log[|log| - 1];
      CountedBy(cands, log[..|log| - 1], tenant)
        + (if last in cands && cands[last].key.tenant == tenant then ElementsOf(cands[last].corrections) else {})
  }

  lemma {:induction false} CountedByElements(cands: map<Id, Candidate>, log: seq<Id>, tenant: string, x: Id)
    ensures x in CountedBy(cands, log, tenant) <==>
      exists m :: m in log && m in cands && cands[m].key.tenant == tenant && x in cands[m].corrections
  {
    if log != [] {
      var last := log[|log| - 1];
      CountedByElements(cands, log[..|log| - 1], tenant, x);
      assert log == log[..|log| - 1] + [last];
    }
  }

  lemma {:induction false} DistinctSize(s: seq<Id>)
    requires NoDuplicates(s)
    ensures |ElementsOf(s)| == |s|
  {
    if s != [] {
      var init, last := s[..|s| - 1], s[|s| - 1];
      DistinctSize(init);
      assert s == init + [last];
      assert ElementsOf(s) == ElementsOf(init) + {last};
      assert last !in init;
    }
  }

  lemma EvidenceIsDistinct(l: Learn, m: Id)
    requires LearnInv(l) && m in l.candidates
    ensures NoDuplicates(l.candidates[m].corrections) && l.candidates[m].evidence == |l.candidates[m].corrections|
  {
    assert CandidateOk(l.candidates[m]);
  }

  lemma {:induction false} CountedBySize(l: Learn, log: seq<Id>, tenant: string)
    requires LearnInv(l) && NoDuplicates(log) && (forall m :: m in log ==> m in l.candidates)
    ensures |CountedBy(l.candidates, log, tenant)| == EvidenceTotal(l.candidates, log, tenant)
  {
    if log != [] {
      hide LearnInv;
      var init, last := log[..|log| - 1], log[|log| - 1];
      assert last in log && last !in init && forall m :: m in init ==> m in log;
      CountedBySize(l, init, tenant);
      var c := l.candidates[last];
      EvidenceIsDistinct(l, last);
      DistinctSize(c.corrections);
      NotCountedBefore(l, init, last, tenant);
    }
  }

  /** What one candidate learnt from, the others did not. */
  lemma NotCountedBefore(l: Learn, log: seq<Id>, last: Id, tenant: string)
    requires LearnInv(l) && last in l.candidates && last !in log && (forall m :: m in log ==> m in l.candidates)
    ensures forall x :: x in CountedBy(l.candidates, log, tenant) ==> x !in l.candidates[last].corrections
  {
    hide LearnInv;
    forall x | x in CountedBy(l.candidates, log, tenant) ensures x !in l.candidates[last].corrections {
      CountedByElements(l.candidates, log, tenant, x);
      var m :| m in log && m in l.candidates && x in l.candidates[m].corrections;
      if x in l.candidates[last].corrections {
        SourcesAreDisjoint(l, m, last, x);
      }
    }
  }

  /** The stored corrections of a tenant that parsed to a rule. */
  function ParsedOf(l: Learn, tenant: string): set<Id> {
    set x | x in l.corrections && l.corrections[x].tenant == tenant && Parsed(l.corrections[x])
  }

  lemma CountedIsParsed(l: Learn, tenant: string, x: Id)
    requires LearnInv(l)
    ensures x in CountedBy(l.candidates, l.log, tenant) <==> x in ParsedOf(l, tenant)
  {
    CountedByElements(l.candidates, l.log, tenant, x);
    if x in ParsedOf(l, tenant) {
      assert IsCounted(l, x);
      var i :| i in l.candidates && x in l.candidates[i].corrections;
      assert SourcesAgree(l, l.candidates[i]);
      assert i in l.log;
    }
    if x in CountedBy(l.candidates, l.log, tenant) {
      var m :| m in l.log && m in l.candidates && l.candidates[m].key.tenant == tenant
        && x in l.candidates[m].corrections;
      assert SourcesAgree(l, l.candidates[m]);
    }
  }

  /** A tenant's evidence counts sum to the number of its stored corrections that parsed. */
  lemma EvidenceConservation(l: Learn, tenant: string)
    requires LearnInv(l)
    ensures EvidenceTotal(l.candidates, l.log, tenant) == |ParsedOf(l, tenant)|
  {
    CountedBySize(l, l.log, tenant);
    forall x ensures x in CountedBy(l.candidates, l.log, tenant) <==> x in ParsedOf(l, tenant) {
      CountedIsParsed(l, tenant, x);
    }
    assert CountedBy(l.candidates, l.log, tenant) == ParsedOf(l, tenant);
  }
}
