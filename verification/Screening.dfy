/** The loop that combines the findings of the deterministic scanner. */
module Screening {
  import opened Records
  import opened Replay

  /** The scanner reports reviews and denials, each with its code. */
  predicate Findings(findings: seq<Verdict>) {
    forall i :: 0 <= i < |findings| ==> findings[i].decision in {Review, Deny} && findings[i].reason != ""
  }

  predicate LastDenial(findings: seq<Verdict>, i: nat)
    requires i < |findings|
  {
    findings[i].decision == Deny && forall j :: i < j < |findings| ==> findings[j].decision != Deny
  }

  /** The last denial wins, otherwise the first review; nothing found is an allow. */
  method Screen(findings: seq<Verdict>) returns (verdict: Verdict)
    requires Findings(findings)
    ensures IsVerdict(verdict.decision) && verdict.reason != ""
    ensures findings == [] ==> verdict == Verdict(Allow, "allowed")
    ensures findings != [] && (forall i :: 0 <= i < |findings| ==> findings[i].decision == Review) ==> verdict == findings[0]
    ensures forall i :: 0 <= i < |findings| && LastDenial(findings, i) ==> verdict == findings[i]
    ensures verdict.decision == Deny <==> exists i :: 0 <= i < |findings| && findings[i].decision == Deny
  {
    verdict := Verdict(Allow, "allowed");
    for n := 0 to |findings|
      invariant IsVerdict(verdict.decision) && verdict.reason != ""
      invariant verdict.decision == Allow <==> n == 0
      invariant n == 0 ==> verdict == Verdict(Allow, "allowed")
      invariant verdict.decision == Review ==> verdict == findings[0] && forall i :: 0 <= i < n ==> findings[i].decision == Review
      invariant verdict.decision == Deny ==>
                  exists i :: 0 <= i < n && verdict == findings[i] && forall j :: i < j < n ==> findings[j].decision != Deny
    {
      if findings[n].decision == Deny || verdict.decision == Allow {
        verdict := findings[n];
      }
    }
  }
}
