/**
 * simAstrom.py: the first version of the task. It selects the stars of every
 * data reference and, for each non-empty selection, appends one entry to each
 * of nine parallel lists, which are handed to the external `simAstrom`
 * constructor. WCS, bounding box and filter name come from the calexp itself.
 */
module SimAstrom1 {
  import opened Wrappers
  import opened Tables
  import opened StarSelector
  import opened Pipeline
  import opened SimAstrom2

  /**
   * The configuration has the same fields as simAstrom2.py's, with another
   * default flux field; the star selector is simAstrom2.py's, line for line.
   */
  const DefaultConfig: TaskConfig := TaskConfig("base_CircularApertureFlux_5", "base_SdssCentroid", "base_SdssShape")

  /**
   * The defaults of this version and simAstrom2.py differ only in the flux
   * field: the same bad flags, magnitude cut, centroid and shape.
   */
  lemma DefaultsDifferInFluxField()
    ensures DefaultConfig.sourceFluxField != SimAstrom2.DefaultConfig.sourceFluxField
    ensures SelectorFor(DefaultConfig)
            == SelectorFor(SimAstrom2.DefaultConfig).(fluxField := DefaultConfig.sourceFluxField)
  {
  }

  /** The nine lists and the control object passed to `simAstrom(...)`. */
  datatype SimAstromArgs = SimAstromArgs(
    srcList: seq<seq<Record>>,
    metaList: seq<Handle>,
    wcsList: seq<Wcs>,
    bboxList: seq<Box>,
    filterList: seq<string>,
    calibList: seq<Calib>,
    visitList: seq<int>,
    ccdList: seq<int>,
    cameraList: seq<string>,
    control: AstromControl)

  /**
   * The lists are parallel, one entry per kept reference, and entry j holds
   * the j-th kept reference's selection, metadata, calexp WCS and box, calexp
   * filter name, calibration, visit, ccd and camera.
   */
  predicate ArgsFor(args: SimAstromArgs, refs: seq<DataRef>, ps: seq<Pick>)
    requires IndicesBelow(ps, |refs|)
  {
    && |args.srcList| == |ps| && |args.metaList| == |ps| && |args.wcsList| == |ps|
    && |args.bboxList| == |ps| && |args.filterList| == |ps| && |args.calibList| == |ps|
    && |args.visitList| == |ps| && |args.ccdList| == |ps| && |args.cameraList| == |ps|
    && forall j :: 0 <= j < |ps| ==>
      var ref := refs[ps[j].index];
      && args.srcList[j] == ps[j].sources
      && args.metaList[j] == ref.metadata
      && args.wcsList[j] == CalexpWcs(ref.calexp)
      && args.bboxList[j] == CalexpBox(ref.calexp)
      && args.filterList[j] == ref.calexpFilter
      && args.calibList[j] == ref.calib
      && args.visitList[j] == ref.dataId.visit
      && args.ccdList[j] == ref.dataId.ccd
      && args.cameraList[j] == ref.camera
  }

  /** Appending the entries of reference i, with its selection, to every list keeps the lists in step with the picks. */
  lemma ArgsForAppend(args: SimAstromArgs, refs: seq<DataRef>, ps: seq<Pick>, i: nat, sel: seq<Record>)
    requires IndicesBelow(ps, |refs|) && i < |refs| && ArgsFor(args, refs, ps)
    ensures IndicesBelow(ps + [Pick(i, sel)], |refs|)
    ensures var ref := refs[i];
      ArgsFor(SimAstromArgs(args.srcList + [sel], args.metaList + [ref.metadata],
                            args.wcsList + [CalexpWcs(ref.calexp)], args.bboxList + [CalexpBox(ref.calexp)],
                            args.filterList + [ref.calexpFilter], args.calibList + [ref.calib],
                            args.visitList + [ref.dataId.visit], args.ccdList + [ref.dataId.ccd],
                            args.cameraList + [ref.camera], args.control),
              refs, ps + [Pick(i, sel)])
  {
  }

  /**
   * `run(ref)` up to the `simAstrom(...)` call: the arguments it builds, or
   * the exception of the first selection that raises.
   */
  method Run(tc: TaskConfig, refs: seq<DataRef>, photometry: Photometry)
    returns (r: Result<SimAstromArgs, SelectError>)
    requires Readable(refs)
    ensures r.Err? <==> Picks(SelectorFor(tc), refs, photometry).Err?
    ensures r.Err? ==> Picks(SelectorFor(tc), refs, photometry) == Err(r.error)
    ensures r.Ok? ==>
      && IndicesBelow(Picks(SelectorFor(tc), refs, photometry).value, |refs|)
      && ArgsFor(r.value, refs, Picks(SelectorFor(tc), refs, photometry).value)
      && r.value.control == ControlFor(tc)
  {
    var srcList: seq<seq<Record>> := [];
    var metaList: seq<Handle> := [];
    var wcsList: seq<Wcs> := [];
    var bboxList: seq<Box> := [];
    var filterList: seq<string> := [];
    var calibList: seq<Calib> := [];
    var visitList: seq<int> := [];
    var ccdList: seq<int> := [];
    var cameraList: seq<string> := [];
    var ss := SelectorFor(tc);
    ghost var ps: seq<Pick> := [];
    for i := 0 to |refs|
      invariant Readable(refs[..i]) && Picks(ss, refs[..i], photometry) == Ok(ps)
      invariant IndicesBelow(ps, i)
      invariant ArgsFor(SimAstromArgs(srcList, metaList, wcsList, bboxList, filterList, calibList,
                                      visitList, ccdList, cameraList, ControlFor(tc)), refs, ps)
    {
      PicksStep(ss, refs, i, photometry);
      var dataRef := refs[i];
      var newSrc := StarSelector.Select(ss, dataRef.src, dataRef.calib, photometry);
      if newSrc.Err? {
        PicksPrefixErr(ss, refs, i + 1, photometry);
        return Err(newSrc.error);
      }
      if |newSrc.value| == 0 {
        continue;
      }
      ArgsForAppend(SimAstromArgs(srcList, metaList, wcsList, bboxList, filterList, calibList,
                                  visitList, ccdList, cameraList, ControlFor(tc)), refs, ps, i, newSrc.value);
      srcList := srcList + [newSrc.value];
      metaList := metaList + [dataRef.metadata];
      wcsList := wcsList + [CalexpWcs(dataRef.calexp)];
      bboxList := bboxList + [CalexpBox(dataRef.calexp)];
      filterList := filterList + [dataRef.calexpFilter];
      calibList := calibList + [dataRef.calib];
      visitList := visitList + [dataRef.dataId.visit];
      ccdList := ccdList + [dataRef.dataId.ccd];
      cameraList := cameraList + [dataRef.camera];
      ps := ps + [Pick(i, newSrc.value)];
    }
    assert refs[..|refs|] == refs;
    r := Ok(SimAstromArgs(srcList, metaList, wcsList, bboxList, filterList, calibList,
                          visitList, ccdList, cameraList, ControlFor(tc)));
  }

  /**
   * With the same configuration, this version and simAstrom2.py hand on the
   * same images in the same order, with the same selections, metadata,
   * calibrations, visits, ccds, cameras and control object. They differ in
   * where WCS, box and filter come from: this version reads them from the
   * calexp, simAstrom2.py builds WCS and box from the metadata and takes the
   * filter from the data id.
   */
  lemma SameImagesAsAssociations(tc: TaskConfig, refs: seq<DataRef>, photometry: Photometry, args: SimAstromArgs)
    requires Readable(refs) && Picks(SelectorFor(tc), refs, photometry).Ok?
    requires IndicesBelow(Picks(SelectorFor(tc), refs, photometry).value, |refs|)
    requires ArgsFor(args, refs, Picks(SelectorFor(tc), refs, photometry).value) && args.control == ControlFor(tc)
    ensures var ps := Picks(SelectorFor(tc), refs, photometry).value;
      var calls := AddImageCalls(refs, ps, ControlFor(tc));
      && |calls| == |args.srcList|
      && forall j :: 0 <= j < |calls| ==>
        var ref := refs[ps[j].index];
        && calls[j].sources == args.srcList[j] && calls[j].calib == args.calibList[j]
        && calls[j].metadata == args.metaList[j]
        && calls[j].visit == args.visitList[j] && calls[j].ccd == args.ccdList[j]
        && calls[j].camera == args.cameraList[j] && calls[j].control == args.control
        && calls[j].wcs == MetadataWcs(args.metaList[j]) && args.wcsList[j] == CalexpWcs(ref.calexp)
        && calls[j].box == MetadataBox(args.metaList[j]) && args.bboxList[j] == CalexpBox(ref.calexp)
        && calls[j].filter == ref.dataId.filter && args.filterList[j] == ref.calexpFilter
  {
  }

  /** Every list entry comes from a reference whose selection is not empty, in input order. */
  lemma ArgsFromNonEmptySelections(cfg: SelectorConfig, refs: seq<DataRef>, photometry: Photometry,
                                   ps: seq<Pick>, args: SimAstromArgs)
    requires Readable(refs) && Picks(cfg, refs, photometry) == Ok(ps)
    requires IndicesBelow(ps, |refs|) && ArgsFor(args, refs, ps)
    ensures forall j :: 0 <= j < |args.srcList| ==>
      args.srcList[j] != [] && Selected(cfg, refs[ps[j].index], photometry) == Ok(args.srcList[j])
    ensures forall j1, j2 :: 0 <= j1 < j2 < |args.srcList| ==> ps[j1].index < ps[j2].index
  {
    PicksSound(cfg, refs, photometry);
  }
}
