/** The case tables as an object: internal/store/memory/store.go and the snapshot scan of
 *  internal/app/app.go, proved against `Cases`.
 */
module CaseStore {
  import opened CandidateStore
  import opened Cases
  import opened Conditions
  import opened Learning
  import opened Sorting

  class CaseStore {
    var caseRuns: map<Id, CaseRun>
    var decisionPoints: map<Id, DecisionPoint>
    var artifacts: map<Id, Artifact>
    var packets: map<Id, ReviewPacket>

    ghost function State(): Docket
      reads this
    {
      Docket(caseRuns, decisionPoints, artifacts, packets)
    }

    constructor ()
      ensures State() == EMPTY_DOCKET
    {
      caseRuns, decisionPoints, artifacts, packets := map[], map[], map[], map[];
    }

    /** The artifacts of a case in order of id, whatever order the map is scanned in. */
    method ListArtifacts(tenant: string, run: Id) returns (out: seq<Id>)
      ensures forall a :: a in out <==> a in artifacts && artifacts[a].tenant == tenant && artifacts[a].caseRun == run
      ensures forall i, j :: 0 <= i < j < |out| ==> out[i] < out[j]
    {
      out := [];
      var rest := artifacts.Keys;
      while rest != {}
        invariant rest <= artifacts.Keys
        invariant forall a :: a in out <==>
          a in artifacts && a !in rest && artifacts[a].tenant == tenant && artifacts[a].caseRun == run
        invariant NoDuplicates(out)
        decreases |rest|
      {
        var a :| a in rest;
        if artifacts[a].tenant == tenant && artifacts[a].caseRun == run {
          out := out + [a];
        }
        rest := rest - {a};
      }
      SortIds(out);
      out := Sort(IdLess, out);
    }

    /** The content of the first snapshot of a case, else its input. */
    method SnapshotContent(tenant: string, run: Id) returns (payload: Payload)
      requires run in caseRuns
      ensures payload == SnapshotPayload(State(), tenant, run)
    {
      var listed := ListArtifacts(tenant, run);
      var n := 0;
      while n < |listed|
        invariant 0 <= n <= |listed|
        invariant forall k :: 0 <= k < n ==> !IsSnapshotOf(State(), listed[k], tenant, run)
      {
        assert listed[n] in listed;
        if artifacts[listed[n]].isSnapshot {
          FirstOfListed(State(), listed, n, tenant, run);
          return artifacts[listed[n]].content;
        }
        n := n + 1;
      }
      return caseRuns[run].payload;
    }

    method CreateCaseRun(id: Id, run: CaseRun)
      modifies this`caseRuns
      ensures caseRuns == old(caseRuns)[id := run]
    {
      caseRuns := caseRuns[id := run];
    }

    method CreateDecisionPoint(id: Id, point: DecisionPoint)
      modifies this`decisionPoints
      ensures decisionPoints == old(decisionPoints)[id := point]
    {
      decisionPoints := decisionPoints[id := point];
    }

    method CreateArtifact(id: Id, artifact: Artifact)
      modifies this`artifacts
      ensures artifacts == old(artifacts)[id := artifact]
    {
      artifacts := artifacts[id := artifact];
    }

    method CreateReviewPacket(id: Id, packet: ReviewPacket)
      modifies this`packets
      ensures packets == old(packets)[id := packet]
    {
      packets := packets[id := packet];
    }

    /** False, and nothing changes, when the tenant has no such case. */
    method UpdateCaseRunStatus(tenant: string, run: Id, status: string) returns (found: bool)
      modifies this`caseRuns
      ensures found <==> run in old(caseRuns) && old(caseRuns)[run].tenant == tenant
      ensures caseRuns == if found then old(caseRuns)[run := old(caseRuns)[run].(status := status)] else old(caseRuns)
    {
      if run !in caseRuns || caseRuns[run].tenant != tenant {
        return false;
      }
      caseRuns := caseRuns[run := caseRuns[run].(status := status)];
      return true;
    }

    /** False, and nothing changes, when the tenant has no such decision point. */
    method UpdateDecisionPointStatus(tenant: string, point: Id, status: string) returns (found: bool)
      modifies this`decisionPoints
      ensures found <==> point in old(decisionPoints) && old(decisionPoints)[point].tenant == tenant
      ensures decisionPoints ==
        if found then old(decisionPoints)[point := old(decisionPoints)[point].(status := status)]
        else old(decisionPoints)
    {
      if point !in decisionPoints || decisionPoints[point].tenant != tenant {
        return false;
      }
      decisionPoints := decisionPoints[point := decisionPoints[point].(status := status)];
      return true;
    }
  }

  /** In a list sorted by id, the first snapshot met is the first snapshot of the case. */
  lemma FirstOfListed(d: Docket, listed: seq<Id>, n: nat, tenant: string, run: Id)
    requires run in d.runs && n < |listed| && IsSnapshotOf(d, listed[n], tenant, run)
    requires forall a :: IsSnapshotOf(d, a, tenant, run) ==> a in listed
    requires forall i, j :: 0 <= i < j < |listed| ==> listed[i] < listed[j]
    requires forall k :: 0 <= k < n ==> !IsSnapshotOf(d, listed[k], tenant, run)
    ensures SnapshotPayload(d, tenant, run) == d.artifacts[listed[n]].content
  {
    forall b | b in d.artifacts && IsSnapshotOf(d, b, tenant, run) ensures listed[n] <= b {
      var j :| 0 <= j < |listed| && listed[j] == b;
      assert n <= j;
    }
    assert IsFirstSnapshot(d, listed[n], tenant, run);
  }
}
