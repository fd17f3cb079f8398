/** The earlier, single-threaded symmetry manager. Its enqueue loops are
    those of the multi-threaded manager with waters always included and
    without the closed-symmetry folding: every symmetry is treated as open,
    so copy r of a symmetry with n repeats always gets weight n - r. */
module SymmetryManager {
  import opened Histograms
  import opened Symmetries
  import MT = SymmetryManagerMT

  /** A symmetry with the closed flag dropped. */
  function Open(s: Symmetry): (o: Symmetry)
    ensures o.repeat == s.repeat && !o.closed
  {
    Symmetry(s.repeat, false)
  }

  /** The bodies as this manager sees them: every symmetry open. */
  function OpenBodies(bodies: seq<Body>): (r: seq<Body>)
    ensures |r| == |bodies|
    ensures forall i :: 0 <= i < |r| ==> |r[i].symmetries| == |bodies[i].symmetries|
    ensures forall i, s :: 0 <= i < |r| && 0 <= s < |r[i].symmetries| ==> r[i].symmetries[s] == Open(bodies[i].symmetries[s])
  {
    seq(|bodies|, i requires 0 <= i < |bodies| =>
      Body(seq(|bodies[i].symmetries|, s requires 0 <= s < |bodies[i].symmetries| => Open(bodies[i].symmetries[s]))))
  }

  /** Dropping the closed flags keeps the number of copies of a body. */
  lemma {:induction false} OpenTotal(syms: seq<Symmetry>, open: seq<Symmetry>)
    requires |open| == |syms| && forall s :: 0 <= s < |syms| ==> open[s] == Open(syms[s])
    ensures SymmetryTotal(open) == SymmetryTotal(syms)
  {
    if syms != [] {
      var n := |syms| - 1;
      OpenTotal(syms[..n], open[..n]);
    }
  }

  /** Self histograms are scaled by the body's own number of copies. */
  lemma OpenDuplicates(bodies: seq<Body>, i: nat)
    requires i < |bodies|
    ensures Duplicates(OpenBodies(bodies)[i]) == Duplicates(bodies[i])
  {
    OpenTotal(bodies[i].symmetries, OpenBodies(bodies)[i].symmetries);
  }

  /** The repeat loop runs over every copy and copy r is reused
      `repeat - r` times. */
  lemma OpenWeights(s: Symmetry)
    ensures HostTerms(Open(s)) == s.repeat
    ensures forall r :: 0 <= r < s.repeat ==> Weight(Open(s), r) == s.repeat - r
  {
  }

  /** On a closed symmetry with a single repeat this manager keeps the one
      host-versus-copy term with weight 1; the corrected rule of the
      multi-threaded manager agrees with it there. */
  lemma SingleRepeatAgrees(s: Symmetry)
    requires s.repeat == 1
    ensures HostTerms(s) == HostTerms(Open(s)) == 1
    ensures Weight(s, 0) == Weight(Open(s), 0) == 1
  {
  }

  /** `calculate`: the enqueue loops with waters, in-place scaling, routing
      from `cross[1]` on with `cross[0]` seeding p_aw, the sum `p_tot` and
      truncation. The self results are two per body. */
  method Calculate(bodies: seq<Body>, hist: MT.Request -> Hist, bins: nat)
    returns (pAA: Hist, pWW: Hist, pAW: Hist, pTot: Hist)
    requires |bodies| >= 1
    requires MT.Sized(hist, bins)
    ensures pTot == Truncated(MT.Total(OpenBodies(bodies), true, hist, bins))
    ensures pAA == Resize(MT.ComponentHist(OpenBodies(bodies), true, hist, bins, MT.AA), |pTot|)
    ensures pWW == Resize(MT.ComponentHist(OpenBodies(bodies), true, hist, bins, MT.WW), |pTot|)
    ensures pAW == Resize(MT.ComponentHist(OpenBodies(bodies), true, hist, bins, MT.AW), |pTot|)
  {
    pAA, pWW, pAW, pTot := MT.Calculate(OpenBodies(bodies), true, hist, bins);
  }

  /** Two self calculations per body, atoms then waters, each scaled by the
      body's number of copies. */
  lemma SelfPerBody(bodies: seq<Body>)
    ensures |MT.SelfJobs(OpenBodies(bodies), true)| == 2 * |bodies|
    ensures forall k :: 0 <= k < 2 * |bodies| ==>
              MT.Times(MT.SelfJobs(OpenBodies(bodies), true)[k]) == Duplicates(bodies[k / 2])
  {
    forall k | 0 <= k < 2 * |bodies|
      ensures MT.Times(MT.SelfJobs(OpenBodies(bodies), true)[k]) == Duplicates(bodies[k / 2])
    {
      OpenDuplicates(bodies, k / 2);
    }
  }

  /** The first cross calculation is the body's own atom-water term, which
      seeds p_aw. */
  lemma FirstCrossIsSelfAW(bodies: seq<Body>)
    requires |bodies| >= 1
    ensures |MT.CrossJobs(OpenBodies(bodies), true, |bodies|)| >= 1
    ensures MT.CrossJobs(OpenBodies(bodies), true, |bodies|)[0].tag == MT.SelfAW
  {
    MT.CrossJobsStart(OpenBodies(bodies), |bodies|);
  }
}
