/**
 * The astrometric fitter of the external library (AstromFit), seen only
 * through the calls the task makes on it and the return codes it gives back.
 */
module Engine {
  import opened Wrappers

  /** The parameter groups `Minimize` is asked to fit: "Distortions", "Positions", "Distortions Positions". */
  datatype Stage = Distortions | Positions | DistortionsPositions

  /** The residual tuple file: "res_<tract>.list" (simAstrom3.py) or a fixed name (simAstrom2.py). */
  datatype TupleName = PerTract(tract: int) | Named(name: string)

  /** One call on the fitter; `nSigma` is the outlier-rejection cut, when one is given. */
  datatype Call = Minimize(stage: Stage, nSigma: Option<real>) | ComputeChi2 | MakeResTuple(name: TupleName)

  /**
   * The fitter: its answer to the n-th Minimize call (0 converged, 1 outliers
   * removed but chi2 increased, 2 minimisation failed) is given from outside,
   * and every call is recorded; `minimized` counts the Minimize calls so far.
   */
  class Fit {
    const replies: nat -> int
    var calls: seq<Call>
    var minimized: nat

    constructor (replies: nat -> int)
      ensures this.replies == replies && calls == [] && minimized == 0
    {
      this.replies := replies;
      calls := [];
      minimized := 0;
    }

    method Minimize(stage: Stage, nSigma: Option<real>) returns (code: int)
      modifies this
      ensures calls == old(calls) + [Call.Minimize(stage, nSigma)] && minimized == old(minimized) + 1
      ensures code == replies(old(minimized))
    {
      code := replies(minimized);
      calls := calls + [Call.Minimize(stage, nSigma)];
      minimized := minimized + 1;
    }

    method ComputeChi2()
      modifies this
      ensures calls == old(calls) + [Call.ComputeChi2] && minimized == old(minimized)
    {
      calls := calls + [Call.ComputeChi2];
    }

    method MakeResTuple(name: TupleName)
      modifies this
      ensures calls == old(calls) + [Call.MakeResTuple(name)] && minimized == old(minimized)
    {
      calls := calls + [Call.MakeResTuple(name)];
    }
  }

  /** The fixed opening of both fitting versions: each stage is minimised, then chi2 is computed. */
  const WarmUp: seq<Call> := [
    Minimize(Distortions, None), ComputeChi2,
    Minimize(Positions, None), ComputeChi2,
    Minimize(DistortionsPositions, None), ComputeChi2]

  /** How many fitter answers the warm-up consumes: one per Minimize call in it. */
  const WarmUpAnswers: nat := 3

  /** Runs the warm-up stages; their return codes are not looked at. */
  method RunWarmUp(fit: Fit)
    modifies fit
    ensures fit.calls == old(fit.calls) + WarmUp && fit.minimized == old(fit.minimized) + WarmUpAnswers
  {
    var _ := fit.Minimize(Distortions, None);
    fit.ComputeChi2();
    var _ := fit.Minimize(Positions, None);
    fit.ComputeChi2();
    var _ := fit.Minimize(DistortionsPositions, None);
    fit.ComputeChi2();
  }
}
