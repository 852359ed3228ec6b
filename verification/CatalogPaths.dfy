/** Building runs of the catalog piece by piece. */
module CatalogPaths {
  import opened Catalog
  import opened CatalogRuns

  ghost predicate Leads(fp: Fingerprint, s: State, step: Step, n: State) {
    CanStep(s, step) && Take(fp, s, step) == n
  }

  ghost predicate Path(fp: Fingerprint, run: seq<State>, steps: seq<Step>) {
    |run| == |steps| + 1 && forall i :: 0 <= i < |steps| ==> Leads(fp, run[i], steps[i], run[i + 1])
  }

  lemma Join(fp: Fingerprint, r1: seq<State>, s1: seq<Step>, r2: seq<State>, s2: seq<Step>)
    requires Path(fp, r1, s1) && Path(fp, r2, s2) && r1[|s1|] == r2[0]
    ensures Path(fp, r1 + r2[1..], s1 + s2)
  {
    var run, steps := r1 + r2[1..], s1 + s2;
    forall i | 0 <= i < |steps|
      ensures Leads(fp, run[i], steps[i], run[i + 1])
    {
      if i < |s1| {
        assert run[i] == r1[i] && run[i + 1] == r1[i + 1] && steps[i] == s1[i];
      } else {
        var j := i - |s1|;
        assert run[i] == r2[j] && run[i + 1] == r2[j + 1] && steps[i] == s2[j];
      }
    }
  }

  lemma PathIsRun(fp: Fingerprint, run: seq<State>, steps: seq<Step>, n: nat)
    requires Path(fp, run, steps) && run[0] == Initial(n)
    ensures IsRun(fp, run, steps)
  {
    forall i | 0 <= i < |steps|
      ensures CanStep(run[i], steps[i]) && run[i + 1] == Take(fp, run[i], steps[i])
    {
      assert Leads(fp, run[i], steps[i], run[i + 1]);
    }
  }
}
