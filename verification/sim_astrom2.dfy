/**
 * simAstrom2.py: the single-run task. It selects the stars of every data
 * reference, hands the non-empty selections to the associations, and runs a
 * fixed fit sequence: the warm-up stages, one 5-sigma outlier-rejection fit,
 * and the residual tuple "res.list". Its selector has the magnitude limit
 * 22.5 written into its body.
 */
module SimAstrom2 {
  import opened Wrappers
  import opened Tables
  import opened StarSelector
  import opened Pipeline
  import opened Engine

  /** The fields of SimAstromConfig the modelled code reads. */
  datatype TaskConfig = TaskConfig(sourceFluxField: string, centroid: string, shape: string)

  const DefaultConfig: TaskConfig := TaskConfig("base_CircularApertureFlux_17_0", "base_SdssCentroid", "base_SdssShape")

  /** The control object handed to every AddImage call: the configured field names. */
  function ControlFor(tc: TaskConfig): (c: AstromControl)
    ensures c.sourceFluxField == tc.sourceFluxField && c.centroid == tc.centroid && c.shape == tc.shape
  {
    AstromControl(tc.sourceFluxField, tc.centroid, tc.shape)
  }

  /** The magnitude cut written into this version's select. */
  const FixedMaxMag: real := 22.5

  /** The task's selector: default bad flags, the configured flux field, centroid and shape, and the fixed cut. */
  function SelectorFor(tc: TaskConfig): (cfg: SelectorConfig)
    ensures cfg.badFlags == DefaultBadFlags && cfg.maxMag == FixedMaxMag
    ensures cfg.fluxField == tc.sourceFluxField && cfg.centroid == tc.centroid && cfg.shape == tc.shape
  {
    SelectorConfig(DefaultBadFlags, tc.sourceFluxField, FixedMaxMag, tc.centroid, tc.shape)
  }

  /**
   * This version's `select`: the same body as the configurable one, with the
   * magnitude limit fixed at 22.5. On success the result is an ordered
   * sub-sequence of the catalog's sources.
   */
  method Select(tc: TaskConfig, cat: Catalog, calib: Calib, photometry: Photometry)
    returns (r: Result<seq<Record>, SelectError>)
    requires WellFormed(cat)
    ensures r == Selection(SelectorFor(tc), cat, calib, photometry)
    ensures r.Ok? ==> IsSubsequence(r.value, cat.records)
  {
    r := StarSelector.Select(SelectorFor(tc), cat, calib, photometry);
    if r.Ok? {
      SelectionIsFilter(SelectorFor(tc), cat, calib, photometry);
    }
  }

  /**
   * Against a selector configured with a looser limit, the fixed 22.5 cut
   * keeps a subset of the sources, in the same order, and raises no error the
   * looser one would not.
   */
  lemma FixedCutIsStricter(tc: TaskConfig, cat: Catalog, calib: Calib, photometry: Photometry, maxMag: real)
    requires WellFormed(cat) && FixedMaxMag <= maxMag
    requires Selection(SelectorFor(tc).(maxMag := maxMag), cat, calib, photometry).Ok?
    ensures Selection(SelectorFor(tc), cat, calib, photometry).Ok?
    ensures IsSubsequence(Selection(SelectorFor(tc), cat, calib, photometry).value,
                          Selection(SelectorFor(tc).(maxMag := maxMag), cat, calib, photometry).value)
  {
    SelectionMagLimit(SelectorFor(tc), cat, calib, photometry, maxMag);
  }

  /** The fit sequence after the warm-up: one 5-sigma rejection fit, whose code is not looked at, then the tuple. */
  const Finish: seq<Call> := [Minimize(DistortionsPositions, Some(5.0)), MakeResTuple(Named("res.list"))]

  /**
   * `run(ref)`. The external library associates the images and builds the
   * fitter, which answers with `replies`. A selection that raises ends the
   * run, leaving the images added before it in the associations.
   */
  method Run(tc: TaskConfig, refs: seq<DataRef>, photometry: Photometry, replies: nat -> int)
    returns (assoc: Associations, r: Result<Fit, SelectError>)
    requires Readable(refs)
    ensures fresh(assoc)
    ensures r.Err? <==> Picks(SelectorFor(tc), refs, photometry).Err?
    ensures r.Err? ==> Picks(SelectorFor(tc), refs, photometry) == Err(r.error)
    ensures r.Err? ==>
      exists k :: 0 <= k < |refs| && Picks(SelectorFor(tc), refs[..k], photometry).Ok? &&
        Selected(SelectorFor(tc), refs[k], photometry) == Err(r.error) &&
        IndicesBelow(Picks(SelectorFor(tc), refs[..k], photometry).value, |refs|) &&
        assoc.added == AddImageCalls(refs, Picks(SelectorFor(tc), refs[..k], photometry).value, ControlFor(tc))
    ensures r.Ok? ==>
      var ps := Picks(SelectorFor(tc), refs, photometry).value;
      && IndicesBelow(ps, |refs|)
      && assoc.added == AddImageCalls(refs, ps, ControlFor(tc))
      && fresh(r.value) && r.value.replies == replies
      && r.value.calls == WarmUp + Finish
  {
    var ss := SelectorFor(tc);
    assoc := new Associations();
    var raised := CollectImages(ss, ControlFor(tc), refs, photometry, assoc);
    if raised.Some? {
      return assoc, Err(raised.value);
    }
    var fit := new Fit(replies);
    RunWarmUp(fit);
    var _ := fit.Minimize(DistortionsPositions, Some(5.0));  // one fit that drops measurements beyond 5 sigma
    fit.MakeResTuple(Named("res.list"));
    r := Ok(fit);
  }

  /**
   * A run that succeeds hands on exactly the references whose selection is
   * not empty, in input order, each with its own selection, the metadata WCS
   * and box, the data id's filter, and the configured field names.
   */
  lemma RunAddsNonEmptySelections(tc: TaskConfig, refs: seq<DataRef>, photometry: Photometry)
    requires Readable(refs) && Picks(SelectorFor(tc), refs, photometry).Ok?
    ensures var ps := Picks(SelectorFor(tc), refs, photometry).value;
      && IndicesBelow(ps, |refs|)
      && (forall j1, j2 :: 0 <= j1 < j2 < |ps| ==> ps[j1].index < ps[j2].index)
      && var calls := AddImageCalls(refs, ps, ControlFor(tc));
      && (forall j :: 0 <= j < |calls| ==>
            var ref := refs[ps[j].index];
            && calls[j].sources != []
            && Selected(SelectorFor(tc), ref, photometry) == Ok(calls[j].sources)
            && calls[j].wcs == MetadataWcs(ref.metadata) && calls[j].box == MetadataBox(ref.metadata)
            && calls[j].filter == ref.dataId.filter
            && calls[j].visit == ref.dataId.visit && calls[j].ccd == ref.dataId.ccd
            && calls[j].control == ControlFor(tc))
      && (forall k :: 0 <= k < |refs| && Selected(SelectorFor(tc), refs[k], photometry) != Ok([]) ==>
            exists j :: 0 <= j < |calls| && ps[j].index == k)
  {
    PicksSound(SelectorFor(tc), refs, photometry);
    PicksAllOk(SelectorFor(tc), refs, photometry);
    PicksComplete(SelectorFor(tc), refs, photometry);
  }
}
