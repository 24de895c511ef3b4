/**
 * simAstrom3.py: the per-tract task. The runner groups the data references
 * by tract; for each tract the task selects stars, runs the warm-up fit and
 * an outlier-rejection loop, writes the residual tuple and routes each
 * image's refitted WCS back to its data reference.
 */
module SimAstrom3 {
  import opened Wrappers
  import opened StarSelector
  import opened Pipeline
  import opened Engine
  import SimAstrom2

  // ---------------------------------------------------------------------------
  // Configuration.

  /** The fields of SimAstromConfig the modelled code reads. */
  datatype TaskConfig = TaskConfig(sourceFluxField: string, maxMag: real, centroid: string, shape: string)

  const DefaultConfig: TaskConfig :=
    TaskConfig("base_CircularApertureFlux_17_0", 22.5, "base_SdssCentroid", "base_SdssShape")

  /** The selector the task builds: default bad flags, the configured flux field, magnitude limit, centroid and shape. */
  function SelectorFor(tc: TaskConfig): (cfg: SelectorConfig)
    ensures cfg.badFlags == DefaultBadFlags && cfg.maxMag == tc.maxMag
    ensures cfg.fluxField == tc.sourceFluxField && cfg.centroid == tc.centroid && cfg.shape == tc.shape
  {
    SelectorConfig(DefaultBadFlags, tc.sourceFluxField, tc.maxMag, tc.centroid, tc.shape)
  }

  /** The control object handed to every AddImage call: the configured field names. */
  function ControlFor(tc: TaskConfig): (c: AstromControl)
    ensures c.sourceFluxField == tc.sourceFluxField && c.centroid == tc.centroid && c.shape == tc.shape
  {
    AstromControl(tc.sourceFluxField, tc.centroid, tc.shape)
  }

  /**
   * With their default configurations, this version and simAstrom2.py build
   * the same selector (the configurable limit defaults to the 22.5 written
   * into simAstrom2.py) and hand the same control object to the associations.
   */
  lemma DefaultsAgreeWithSimAstrom2()
    ensures DefaultConfig.maxMag == SimAstrom2.FixedMaxMag
    ensures SelectorFor(DefaultConfig) == SimAstrom2.SelectorFor(SimAstrom2.DefaultConfig)
    ensures ControlFor(DefaultConfig) == SimAstrom2.ControlFor(SimAstrom2.DefaultConfig)
  {
  }

  // ---------------------------------------------------------------------------
  // The outlier-rejection loop.

  const MaxIterations: nat := 20
  const RejectionSigma: real := 5.0

  /** One iteration's calls: a 5-sigma rejection fit of distortions and positions, then chi2. */
  const RejectionStep: seq<Call> := [Minimize(DistortionsPositions, Some(RejectionSigma)), ComputeChi2]

  /** How the loop ended: code 0 at an iteration, another unrecognised code, or all iterations used. */
  datatype LoopEnd = Converged(iteration: nat) | Stopped(code: int, iteration: nat) | Exhausted

  /** Code 1 (the chi2 went up) and code 2 (the minimizer failed) both lead to another iteration. */
  predicate Retries(code: int) {
    code == 1 || code == 2
  }

  /**
   * The way the loop ends, from iteration i on, when the fitter had already
   * answered `base` Minimize calls before the loop.
   */
  function RejectionEnd(replies: nat -> int, base: nat, i: nat): LoopEnd
    requires i <= MaxIterations
    decreases MaxIterations - i
  {
    if i == MaxIterations then Exhausted
    else
      var code := replies(base + i);
      if code == 0 then Converged(i)
      else if Retries(code) then RejectionEnd(replies, base, i + 1)
      else Stopped(code, i)
  }

  /** The fitter's answer at iteration j makes the loop go on. */
  predicate RetriesAt(replies: nat -> int, base: nat, j: nat) {
    Retries(replies(base + j))
  }

  /** The number of iterations run: up to and including the one that stopped the loop, or all of them. */
  function Iterations(end: LoopEnd): nat {
    match end
    case Converged(n) => n + 1
    case Stopped(_, n) => n + 1
    case Exhausted => MaxIterations
  }

  /** The calls of n iterations. */
  function Steps(n: nat): (calls: seq<Call>)
    ensures |calls| == 2 * n
  {
    if n == 0 then [] else Steps(n - 1) + RejectionStep
  }

  /** The loop of simAstrom3.py on a fitter that has already run its warm-up. */
  method RejectOutliers(fit: Fit) returns (end: LoopEnd)
    modifies fit
    ensures end == RejectionEnd(fit.replies, old(fit.minimized), 0)
    ensures fit.calls == old(fit.calls) + Steps(Iterations(end))
    ensures fit.minimized == old(fit.minimized) + Iterations(end)
  {
    ghost var start := fit.calls;
    ghost var base := fit.minimized;
    ghost var replies := fit.replies;
    end := Exhausted;
    var i := 0;
    while i < MaxIterations
      invariant i <= MaxIterations && fit.replies == replies
      invariant fit.calls == start + Steps(i) && fit.minimized == base + i
      invariant RejectionEnd(replies, base, 0) == RejectionEnd(replies, base, i)
      decreases MaxIterations - i
    {
      StepsAppend(start, i);
      var r := RejectionFit(fit);
      RejectionEndAt(replies, base, i);
      if r == 0 {
        // code 0: nothing left to reject, the fit is done
        end := Converged(i);
        break;
      } else if r == 2 {
        // code 2: the minimizer failed; try again
      } else if r == 1 {
        // code 1: outliers remain while the chi2 went up; try again
      } else {
        end := Stopped(r, i);
        break;
      }
      i := i + 1;
    }
  }

  /** One unfolding of RejectionEnd. */
  lemma RejectionEndAt(replies: nat -> int, base: nat, i: nat)
    requires i < MaxIterations
    ensures var code := replies(base + i);
      RejectionEnd(replies, base, i) ==
        if code == 0 then Converged(i) else if Retries(code) then RejectionEnd(replies, base, i + 1) else Stopped(code, i)
  {
  }

  lemma StepsAppend(start: seq<Call>, i: nat)
    ensures (start + Steps(i)) + RejectionStep == start + Steps(i + 1)
  {
    assert Steps(i + 1) == Steps(i) + RejectionStep;
  }

  /** One iteration's calls: `r = fit.Minimize("Distortions Positions", 5)`, then `fit.ComputeChi2()`. */
  method RejectionFit(fit: Fit) returns (r: int)
    modifies fit
    ensures fit.calls == old(fit.calls) + RejectionStep && fit.minimized == old(fit.minimized) + 1
    ensures r == fit.replies(old(fit.minimized))
  {
    r := fit.Minimize(DistortionsPositions, Some(RejectionSigma));
    fit.ComputeChi2();
  }

  /** Every iteration is a 5-sigma rejection fit of distortions and positions followed by chi2. */
  lemma {:induction false} StepsShape(n: nat)
    ensures forall k :: 0 <= k < n ==>
      Steps(n)[2 * k] == Minimize(DistortionsPositions, Some(RejectionSigma)) && Steps(n)[2 * k + 1] == ComputeChi2
  {
    if n > 0 {
      StepsShape(n - 1);
      forall k | 0 <= k < n
        ensures Steps(n)[2 * k] == Minimize(DistortionsPositions, Some(RejectionSigma)) && Steps(n)[2 * k + 1] == ComputeChi2
      {
        if k < n - 1 {
          assert Steps(n)[2 * k] == Steps(n - 1)[2 * k];
          assert Steps(n)[2 * k + 1] == Steps(n - 1)[2 * k + 1];
        }
      }
    }
  }

  /**
   * The exit rules: the loop ends at the first iteration whose code is not 1
   * or 2; it reports code 0 as convergence and any other code as a stop, and
   * it runs all 20 iterations only when every code was 1 or 2.
   */
  lemma {:induction false} RejectionExit(replies: nat -> int, base: nat, i: nat)
    requires i <= MaxIterations
    ensures var end := RejectionEnd(replies, base, i);
      && i <= Iterations(end) <= MaxIterations
      && (forall j :: i <= j < Iterations(end) - 1 ==> RetriesAt(replies, base, j))
      && (end.Converged? ==> i <= end.iteration < MaxIterations && replies(base + end.iteration) == 0)
      && (end.Stopped? ==>
            i <= end.iteration < MaxIterations && end.code == replies(base + end.iteration) && end.code !in {0, 1, 2})
      && (end.Exhausted? <==> forall j :: i <= j < MaxIterations ==> RetriesAt(replies, base, j))
    decreases MaxIterations - i
  {
    if i < MaxIterations && RetriesAt(replies, base, i) {
      RejectionExit(replies, base, i + 1);
    }
  }

  // ---------------------------------------------------------------------------
  // Routing the refitted WCS back to the data references.

  /** A CCD image of the fit, named "<visit>_<ccd>". */
  datatype Image = Image(visit: int, ccd: int)

  /** The `put` of image `image`'s WCS through reference `ref`; `failed` when it raised and was logged. */
  datatype Write = Write(image: nat, ref: nat, failed: bool)

  predicate Matches(im: Image, r: DataRef) {
    r.dataId.visit == im.visit && r.dataId.ccd == im.ccd
  }

  /** The first reference whose visit and ccd are those of the image. */
  function FirstMatch(im: Image, refs: seq<DataRef>): (k: Option<nat>)
    ensures k.Some? ==> k.value < |refs| && Matches(im, refs[k.value])
    ensures k.Some? ==> forall j :: 0 <= j < k.value ==> !Matches(im, refs[j])
    ensures k.None? <==> forall j :: 0 <= j < |refs| ==> !Matches(im, refs[j])
  {
    if refs == [] then None
    else if Matches(im, refs[0]) then Some(0)
    else
      match FirstMatch(im, refs[1..])
      case None => None
      case Some(k) => Some(k + 1)
  }

  /** The writes for the images in order: each image writes through its first matching reference, if any. */
  function Routing(images: seq<Image>, refs: seq<DataRef>, putFails: (Image, DataRef) -> bool): seq<Write> {
    if images == [] then []
    else
      var n := |images| - 1;
      Routing(images[..n], refs, putFails) +
        match FirstMatch(images[n], refs)
        case None => []
        case Some(k) => [Write(n, k, putFails(images[n], refs[k]))]
  }

  /** The routing loop; `putFails` says which puts raise (the butler is not part of this model). */
  method RouteWcs(images: seq<Image>, refs: seq<DataRef>, putFails: (Image, DataRef) -> bool)
    returns (writes: seq<Write>)
    ensures writes == Routing(images, refs, putFails)
  {
    writes := [];
    for n := 0 to |images|
      invariant writes == Routing(images[..n], refs, putFails)
    {
      assert images[..n + 1][..n] == images[..n];
      var im := images[n];
      var j := 0;
      while j < |refs|
        invariant j <= |refs|
        invariant forall i :: 0 <= i < j ==> !Matches(im, refs[i])
        invariant writes == Routing(images[..n], refs, putFails)
      {
        if Matches(im, refs[j]) {
          var failed := putFails(im, refs[j]);
          writes := writes + [Write(n, j, failed)];
          break;
        }
        j := j + 1;
      }
    }
    assert images[..|images|] == images;
  }

  /** Each image writes at most once (image indices strictly increase), through its first matching reference. */
  lemma {:induction false} RoutingSound(images: seq<Image>, refs: seq<DataRef>, putFails: (Image, DataRef) -> bool)
    ensures var ws := Routing(images, refs, putFails);
      && (forall w :: w in ws ==> w.image < |images| && FirstMatch(images[w.image], refs) == Some(w.ref))
      && (forall a, b :: 0 <= a < b < |ws| ==> ws[a].image < ws[b].image)
    decreases |images|
  {
    if images != [] {
      var n := |images| - 1;
      var prefix := images[..n];
      RoutingSound(prefix, refs, putFails);
      var ws := Routing(images, refs, putFails);
      var before := Routing(prefix, refs, putFails);
      assert forall w :: w in before ==> w.image < n && prefix[w.image] == images[w.image];
      forall a, b | 0 <= a < b < |ws| ensures ws[a].image < ws[b].image {
        if b >= |before| {
          assert ws[a] in before;
        }
      }
    }
  }

  /** Every image that has a matching reference writes, even when an earlier put failed. */
  lemma {:induction false} RoutingComplete(images: seq<Image>, refs: seq<DataRef>, putFails: (Image, DataRef) -> bool)
    ensures forall n :: 0 <= n < |images| && FirstMatch(images[n], refs).Some? ==>
      exists w :: w in Routing(images, refs, putFails) && w.image == n
    decreases |images|
  {
    if images != [] {
      var n := |images| - 1;
      var prefix := images[..n];
      RoutingComplete(prefix, refs, putFails);
      var ws := Routing(images, refs, putFails);
      var before := Routing(prefix, refs, putFails);
      forall m | 0 <= m < |images| && FirstMatch(images[m], refs).Some?
        ensures exists w :: w in ws && w.image == m
      {
        if m < n {
          assert prefix[m] == images[m];
          var w :| w in before && w.image == m;
          assert w in ws;
        } else {
          assert ws[|before|] in ws;
        }
      }
    }
  }

  /** A failed put changes nothing else: which image writes through which reference is the same whatever fails. */
  lemma {:induction false} RoutingIgnoresFailures(images: seq<Image>, refs: seq<DataRef>,
                                                  f: (Image, DataRef) -> bool, g: (Image, DataRef) -> bool)
    ensures var a, b := Routing(images, refs, f), Routing(images, refs, g);
      |a| == |b| && forall k :: 0 <= k < |a| ==> a[k].image == b[k].image && a[k].ref == b[k].ref
    decreases |images|
  {
    if images != [] {
      RoutingIgnoresFailures(images[..|images| - 1], refs, f, g);
    }
  }

  // ---------------------------------------------------------------------------
  // Grouping the references by tract (SimAstromRunner.getTargetList).

  /** The references of one tract, in input order. */
  function TractRefs(refs: seq<DataRef>, tract: int): (rs: seq<DataRef>)
    ensures |rs| <= |refs|
  {
    if refs == [] then []
    else
      var last := refs[|refs| - 1];
      TractRefs(refs[..|refs| - 1], tract) + (if last.dataId.tract == tract then [last] else [])
  }

  /** The tracts that occur among the references. */
  function Tracts(refs: seq<DataRef>): set<int> {
    if refs == [] then {} else Tracts(refs[..|refs| - 1]) + {refs[|refs| - 1].dataId.tract}
  }

  /** One call of run: the tract's references and the tract. */
  datatype Target = Target(refs: seq<DataRef>, tract: int)

  predicate StrictlyIncreasing(s: seq<int>) {
    forall i, j :: 0 <= i < j < |s| ==> s[i] < s[j]
  }

  lemma {:induction false} MinimumExists(s: set<int>)
    requires s != {}
    ensures exists m :: m in s && forall x :: x in s ==> m <= x
    decreases |s|
  {
    if forall x :: x !in s { assert false; }
    var a :| a in s;
    var rest := s - {a};
    if rest == {} {
      forall x | x in s ensures a <= x {
        assert x == a || x in rest;
      }
      assert a in s;
    } else {
      assert |rest| < |s| by { assert rest * {a} == {}; assert s == rest + {a}; }
      MinimumExists(rest);
      var m :| m in rest && forall x :: x in rest ==> m <= x;
      var w := if a < m then a else m;
      forall x | x in s ensures w <= x {
        if x != a { assert x in rest; }
      }
      assert w in s;
    }
  }

  /** `sorted(keys)`: the keys in ascending order. */
  method SortedKeys(keys: set<int>) returns (sorted: seq<int>)
    ensures StrictlyIncreasing(sorted)
    ensures forall t :: t in sorted <==> t in keys
    ensures |sorted| == |keys|
  {
    sorted := [];
    var rest := keys;
    while rest != {}
      invariant StrictlyIncreasing(sorted)
      invariant forall t :: t in keys <==> t in sorted || t in rest
      invariant forall t :: t in sorted ==> t !in rest
      invariant forall t, u :: t in sorted && u in rest ==> t < u
      invariant |sorted| + |rest| == |keys|
      decreases |rest|
    {
      MinimumExists(rest);
      var m :| m in rest && forall x :: x in rest ==> m <= x;
      assert |rest - {m}| + 1 == |rest| by {
        assert (rest - {m}) * {m} == {};
        assert rest == (rest - {m}) + {m};
      }
      forall i, j | 0 <= i < j < |sorted| + 1 ensures (sorted + [m])[i] < (sorted + [m])[j] {
        if j == |sorted| {
          assert sorted[i] in sorted;
        }
      }
      sorted := sorted + [m];
      rest := rest - {m};
    }
  }

  /** The loop of `getTargetList`: each reference appended to the list of its tract, in input order. */
  method GroupByTract(refs: seq<DataRef>) returns (byTract: map<int, seq<DataRef>>)
    ensures byTract.Keys == Tracts(refs)
    ensures forall t :: t in byTract ==> byTract[t] == TractRefs(refs, t)
  {
    byTract := map[];
    for i := 0 to |refs|
      invariant byTract.Keys == Tracts(refs[..i])
      invariant forall t :: t in byTract ==> byTract[t] == TractRefs(refs[..i], t)
    {
      assert refs[..i + 1][..i] == refs[..i];
      var tract := refs[i].dataId.tract;
      if tract in byTract {
        byTract := byTract[tract := byTract[tract] + [refs[i]]];
      } else {
        assert TractRefs(refs[..i], tract) == [] by {
          TractRefsEmpty(refs[..i], tract);
        }
        byTract := byTract[tract := [refs[i]]];
      }
    }
    assert refs[..|refs|] == refs;
  }

  /** The targets come in strictly ascending tract order, so no tract has two targets. */
  predicate AscendingTracts(targets: seq<Target>) {
    forall i, j :: 0 <= i < j < |targets| ==> targets[i].tract < targets[j].tract
  }

  /** The tract of each target, in order. */
  function TractsOf(targets: seq<Target>): (tracts: seq<int>)
    ensures |tracts| == |targets| && forall k :: 0 <= k < |targets| ==> tracts[k] == targets[k].tract
  {
    seq(|targets|, k requires 0 <= k < |targets| => targets[k].tract)
  }

  /** `getTargetList`: the references grouped by tract, one target per tract in ascending tract order. */
  method TargetList(refs: seq<DataRef>) returns (targets: seq<Target>)
    ensures AscendingTracts(targets)
    ensures forall t :: t in Tracts(refs) <==> exists k :: 0 <= k < |targets| && targets[k].tract == t
    ensures forall k :: 0 <= k < |targets| ==> targets[k].refs == TractRefs(refs, targets[k].tract)
  {
    var byTract := GroupByTract(refs);
    var tracts := SortedKeys(byTract.Keys);
    targets := [];
    for k := 0 to |tracts|
      invariant |targets| == k
      invariant forall j :: 0 <= j < k ==> targets[j].tract == tracts[j] && targets[j].refs == TractRefs(refs, tracts[j])
    {
      assert tracts[k] in tracts;
      targets := targets + [Target(byTract[tracts[k]], tracts[k])];
    }
    forall t | t in Tracts(refs)
      ensures exists k :: 0 <= k < |targets| && targets[k].tract == t
    {
      assert t in tracts;
      var k :| 0 <= k < |tracts| && tracts[k] == t;
      assert targets[k].tract == t;
    }
    forall k | 0 <= k < |targets| ensures targets[k].tract in Tracts(refs) {
      assert tracts[k] in tracts;
    }
  }

  lemma {:induction false} TractRefsEmpty(refs: seq<DataRef>, tract: int)
    requires tract !in Tracts(refs)
    ensures TractRefs(refs, tract) == []
    decreases |refs|
  {
    if refs != [] {
      TractRefsEmpty(refs[..|refs| - 1], tract);
    }
  }

  /** A reference belongs to the group of its own tract and to no other; no group is empty. */
  lemma {:induction false} TractRefsMembers(refs: seq<DataRef>, tract: int)
    ensures forall r :: r in TractRefs(refs, tract) <==> r in refs && r.dataId.tract == tract
    ensures tract in Tracts(refs) <==> TractRefs(refs, tract) != []
    decreases |refs|
  {
    if refs != [] {
      var prefix := refs[..|refs| - 1];
      TractRefsMembers(prefix, tract);
      assert refs == prefix + [refs[|refs| - 1]];
    }
  }

  /** Summed over a list of distinct tracts that covers them all, the group sizes count every reference once. */
  function GroupSizes(refs: seq<DataRef>, tracts: seq<int>): nat {
    if tracts == [] then 0 else GroupSizes(refs, tracts[..|tracts| - 1]) + |TractRefs(refs, tracts[|tracts| - 1])|
  }

  lemma {:induction false} GroupSizesSnoc(refs: seq<DataRef>, r: DataRef, tracts: seq<int>)
    requires forall i, j :: 0 <= i < j < |tracts| ==> tracts[i] != tracts[j]
    ensures GroupSizes(refs + [r], tracts) == GroupSizes(refs, tracts) + (if r.dataId.tract in tracts then 1 else 0)
    decreases |tracts|
  {
    if tracts != [] {
      var prefix := tracts[..|tracts| - 1];
      GroupSizesSnoc(refs, r, prefix);
      assert (refs + [r])[..|refs + [r]| - 1] == refs;
      assert r.dataId.tract in tracts <==> r.dataId.tract in prefix || r.dataId.tract == tracts[|tracts| - 1];
    }
  }

  lemma {:induction false} GroupSizesCount(refs: seq<DataRef>, tracts: seq<int>)
    requires forall i, j :: 0 <= i < j < |tracts| ==> tracts[i] != tracts[j]
    requires forall t :: t in Tracts(refs) ==> t in tracts
    ensures GroupSizes(refs, tracts) == |refs|
    decreases |refs|
  {
    if refs == [] {
      GroupSizesEmpty(tracts);
    } else {
      var prefix := refs[..|refs| - 1];
      var last := refs[|refs| - 1];
      GroupSizesCount(prefix, tracts);
      assert refs == prefix + [last];
      GroupSizesSnoc(prefix, last, tracts);
    }
  }

  lemma {:induction false} GroupSizesEmpty(tracts: seq<int>)
    ensures GroupSizes([], tracts) == 0
    decreases |tracts|
  {
    if tracts != [] {
      GroupSizesEmpty(tracts[..|tracts| - 1]);
    }
  }

  /**
   * The targets partition the references: each group is non-empty and holds
   * exactly the references of its tract, and the group sizes add up to the
   * number of references.
   */
  lemma {:induction false} TargetsPartition(refs: seq<DataRef>, targets: seq<Target>)
    requires AscendingTracts(targets)
    requires forall t :: t in Tracts(refs) <==> exists k :: 0 <= k < |targets| && targets[k].tract == t
    requires forall k :: 0 <= k < |targets| ==> targets[k].refs == TractRefs(refs, targets[k].tract)
    ensures forall k :: 0 <= k < |targets| ==> targets[k].refs != []
    ensures forall k, r :: 0 <= k < |targets| && r in refs ==> (r in targets[k].refs <==> r.dataId.tract == targets[k].tract)
    ensures GroupSizes(refs, TractsOf(targets)) == |refs|
  {
    var tracts := TractsOf(targets);
    forall k | 0 <= k < |targets| ensures targets[k].refs != [] {
      TractRefsMembers(refs, targets[k].tract);
    }
    forall k, r | 0 <= k < |targets| && r in refs
      ensures r in targets[k].refs <==> r.dataId.tract == targets[k].tract
    {
      TractRefsMembers(refs, targets[k].tract);
    }
    forall t | t in Tracts(refs) ensures t in tracts {
      var k :| 0 <= k < |targets| && targets[k].tract == t;
      assert tracts[k] == t;
    }
    GroupSizesCount(refs, tracts);
  }

  /** Every reference of a target has the target's tract, so the last one names the tuple of that tract. */
  lemma LastRefHasTract(refs: seq<DataRef>, tract: int)
    requires TractRefs(refs, tract) != []
    ensures var rs := TractRefs(refs, tract); rs[|rs| - 1].dataId.tract == tract
  {
    var rs := TractRefs(refs, tract);
    TractRefsMembers(refs, tract);
    assert rs[|rs| - 1] in rs;
  }

  // ---------------------------------------------------------------------------
  // SimAstromTask.run.

  /** A fresh fitter, its warm-up stages and the rejection loop. */
  method FitTract(replies: nat -> int) returns (fit: Fit, end: LoopEnd)
    ensures fresh(fit) && fit.replies == replies
    ensures end == RejectionEnd(replies, WarmUpAnswers, 0)
    ensures fit.calls == WarmUp + Steps(Iterations(end))
  {
    fit := new Fit(replies);
    RunWarmUp(fit);
    assert fit.calls == WarmUp;
    end := RejectOutliers(fit);
  }

  /** What ends a run early: a selection that raises, or no data reference to name the residual tuple after. */
  datatype RunError = SelectionFailed(error: SelectError) | NoDataRef

  /**
   * `run(ref, tract)` as far as the model sees it. The external library
   * turns the added images into the CCD images `images`; the fitter answers
   * with `replies`. The tuple is named after the tract of the last reference
   * of the loop, not after the `tract` argument.
   */
  method Run(tc: TaskConfig, refs: seq<DataRef>, tract: int, photometry: Photometry,
             replies: nat -> int, images: seq<Image>, putFails: (Image, DataRef) -> bool)
    returns (r: Result<(Associations, Fit, LoopEnd, seq<Write>), RunError>)
    requires Readable(refs)
    ensures r.Err? ==> r.error == NoDataRef || (r.error.SelectionFailed? && Picks(SelectorFor(tc), refs, photometry) == Err(r.error.error))
    ensures r.Err? && r.error == NoDataRef <==> Picks(SelectorFor(tc), refs, photometry).Ok? && refs == []
    ensures r.Ok? ==>
      var (assoc, fit, end, writes) := r.value;
      var ps := Picks(SelectorFor(tc), refs, photometry);
      && refs != [] && ps.Ok? && IndicesBelow(ps.value, |refs|)
      && assoc.added == AddImageCalls(refs, ps.value, ControlFor(tc))
      && fit.replies == replies
      && end == RejectionEnd(replies, WarmUpAnswers, 0)
      && fit.calls == WarmUp + Steps(Iterations(end)) + [MakeResTuple(PerTract(refs[|refs| - 1].dataId.tract))]
      && writes == Routing(images, refs, putFails)
  {
    var ss := SelectorFor(tc);
    var assoc := new Associations();
    var raised := CollectImages(ss, ControlFor(tc), refs, photometry, assoc);
    if raised.Some? {
      return Err(SelectionFailed(raised.value));
    }
    var fit, end := FitTract(replies);
    if refs == [] {
      // the loop variable of the collection loop was never bound
      return Err(NoDataRef);
    }
    var dataRef := refs[|refs| - 1];
    ghost var fitted := fit.calls;
    fit.MakeResTuple(PerTract(dataRef.dataId.tract));
    assert fit.calls == fitted + [MakeResTuple(PerTract(dataRef.dataId.tract))];
    var writes := RouteWcs(images, refs, putFails);
    r := Ok((assoc, fit, end, writes));
  }
}
