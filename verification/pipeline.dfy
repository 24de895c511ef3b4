/**
 * The part of SimAstromTask.run that all three versions share: every data
 * reference's source catalog goes through the star selector, and only the
 * references whose selection is not empty are handed on, in input order.
 */
module Pipeline {
  import opened Wrappers
  import opened Tables
  import opened StarSelector

  /** The butler's data id of one calexp. */
  datatype DataId = DataId(visit: int, ccd: int, tract: int, filter: string)

  /** Something the butler hands out that the model only passes along (metadata, an exposure). */
  datatype Handle = Handle(id: nat)

  /** Where a WCS or a bounding box was read from: the calexp metadata (simAstrom2/3) or the calexp itself (simAstrom). */
  datatype Wcs = MetadataWcs(metadata: Handle) | CalexpWcs(calexp: Handle)
  datatype Box = MetadataBox(metadata: Handle) | CalexpBox(calexp: Handle)

  /**
   * One data reference with what the run reads through it: the `src` catalog,
   * the `calexp_md` metadata, the calexp, the calexp's filter name, the
   * calibration built from the metadata and the camera name.
   */
  datatype DataRef = DataRef(
    dataId: DataId,
    src: Catalog,
    metadata: Handle,
    calexp: Handle,
    calexpFilter: string,
    calib: Calib,
    camera: string)

  /** Every source catalog obeys its own schema. */
  ghost predicate Readable(refs: seq<DataRef>) {
    forall k :: 0 <= k < |refs| ==> WellFormed(refs[k].src)
  }

  /** `ss.select(src, calib)` for one reference. */
  function Selected(cfg: SelectorConfig, r: DataRef, photometry: Photometry): Result<seq<Record>, SelectError>
    requires WellFormed(r.src)
  {
    Selection(cfg, r.src, r.calib, photometry)
  }

  /** A reference that survives the "no source selected" test, with its selection. */
  datatype Pick = Pick(index: nat, sources: seq<Record>)

  /**
   * The references the collection loop keeps: those with a non-empty
   * selection, in order; the first selection that raises ends the run.
   */
  function Picks(cfg: SelectorConfig, refs: seq<DataRef>, photometry: Photometry): Result<seq<Pick>, SelectError>
    requires Readable(refs)
  {
    if refs == [] then Ok([])
    else
      var n := |refs| - 1;
      match Picks(cfg, refs[..n], photometry)
      case Err(e) => Err(e)
      case Ok(ps) =>
        match Selected(cfg, refs[n], photometry)
        case Err(e) => Err(e)
        case Ok(sel) => if sel == [] then Ok(ps) else Ok(ps + [Pick(n, sel)])
  }

  predicate IndicesBelow(ps: seq<Pick>, n: nat) {
    forall j :: 0 <= j < |ps| ==> ps[j].index < n
  }

  /** The kept references are in input order, each once, each with its non-empty selection. */
  lemma {:induction false} PicksSound(cfg: SelectorConfig, refs: seq<DataRef>, photometry: Photometry)
    requires Readable(refs) && Picks(cfg, refs, photometry).Ok?
    ensures var ps := Picks(cfg, refs, photometry).value;
      && IndicesBelow(ps, |refs|)
      && (forall j1, j2 :: 0 <= j1 < j2 < |ps| ==> ps[j1].index < ps[j2].index)
      && (forall j :: 0 <= j < |ps| ==> ps[j].sources != [] && Selected(cfg, refs[ps[j].index], photometry) == Ok(ps[j].sources))
    decreases |refs|
  {
    if refs != [] {
      var n := |refs| - 1;
      var prefix := refs[..n];
      assert forall k :: 0 <= k < n ==> prefix[k] == refs[k];
      PicksSound(cfg, prefix, photometry);
    }
  }

  /** When the run does not fail, every selection succeeded. */
  lemma {:induction false} PicksAllOk(cfg: SelectorConfig, refs: seq<DataRef>, photometry: Photometry)
    requires Readable(refs) && Picks(cfg, refs, photometry).Ok?
    ensures forall k :: 0 <= k < |refs| ==> Selected(cfg, refs[k], photometry).Ok?
    decreases |refs|
  {
    if refs != [] {
      var n := |refs| - 1;
      var prefix := refs[..n];
      assert forall k :: 0 <= k < n ==> prefix[k] == refs[k];
      PicksAllOk(cfg, prefix, photometry);
    }
  }

  /** When the run does not fail, every reference with a non-empty selection is kept. */
  lemma {:induction false} PicksComplete(cfg: SelectorConfig, refs: seq<DataRef>, photometry: Photometry)
    requires Readable(refs) && Picks(cfg, refs, photometry).Ok?
    ensures forall k :: 0 <= k < |refs| && Selected(cfg, refs[k], photometry).Ok? && Selected(cfg, refs[k], photometry).value != [] ==>
      exists j :: 0 <= j < |Picks(cfg, refs, photometry).value| && Picks(cfg, refs, photometry).value[j].index == k
    decreases |refs|
  {
    if refs != [] {
      var n := |refs| - 1;
      var prefix := refs[..n];
      assert forall k :: 0 <= k < n ==> prefix[k] == refs[k];
      PicksComplete(cfg, prefix, photometry);
      var ps := Picks(cfg, prefix, photometry).value;
      var sel := Selected(cfg, refs[n], photometry).value;
      var all := Picks(cfg, refs, photometry).value;
      if sel != [] {
        assert all == ps + [Pick(n, sel)];
        forall k | 0 <= k < |refs| && Selected(cfg, refs[k], photometry).Ok? && Selected(cfg, refs[k], photometry).value != []
          ensures exists j :: 0 <= j < |all| && all[j].index == k
        {
          if k == n {
            assert all[|ps|].index == n;
          } else {
            var j :| 0 <= j < |ps| && ps[j].index == k;
            assert all[j] == ps[j];
          }
        }
      } else {
        assert all == ps;
      }
    }
  }

  /** The run fails exactly when some reference's selection raises, and with the first such error. */
  lemma {:induction false} PicksErr(cfg: SelectorConfig, refs: seq<DataRef>, photometry: Photometry)
    requires Readable(refs)
    ensures Picks(cfg, refs, photometry).Err? <==> exists k :: 0 <= k < |refs| && Selected(cfg, refs[k], photometry).Err?
    ensures Picks(cfg, refs, photometry).Err? ==>
      exists k :: 0 <= k < |refs| && Selected(cfg, refs[k], photometry) == Err(Picks(cfg, refs, photometry).error)
        && forall i :: 0 <= i < k ==> Selected(cfg, refs[i], photometry).Ok?
    decreases |refs|
  {
    if refs != [] {
      var n := |refs| - 1;
      var prefix := refs[..n];
      assert forall k :: 0 <= k < n ==> prefix[k] == refs[k];
      PicksErr(cfg, prefix, photometry);
      if Picks(cfg, prefix, photometry).Ok? {
        PicksAllOk(cfg, prefix, photometry);
      }
    }
  }

  /** Picks of a prefix, for the loops that walk the references. */
  lemma PicksStep(cfg: SelectorConfig, refs: seq<DataRef>, i: nat, photometry: Photometry)
    requires Readable(refs) && i < |refs|
    ensures Readable(refs[..i]) && Readable(refs[..i + 1])
    ensures Picks(cfg, refs[..i + 1], photometry) ==
      match Picks(cfg, refs[..i], photometry)
      case Err(e) => Err(e)
      case Ok(ps) =>
        match Selected(cfg, refs[i], photometry)
        case Err(e) => Err(e)
        case Ok(sel) => if sel == [] then Ok(ps) else Ok(ps + [Pick(i, sel)])
  {
    assert refs[..i + 1][..i] == refs[..i];
  }

  /**
   * SimAstromControl: the field names the external library reads from each
   * selected catalog, copied from the task's configuration.
   */
  datatype AstromControl = AstromControl(sourceFluxField: string, centroid: string, shape: string)

  /** The arguments of one `assoc.AddImage` call (simAstrom2.py, simAstrom3.py). */
  datatype AddImageCall = AddImageCall(
    sources: seq<Record>,
    wcs: Wcs,
    metadata: Handle,
    box: Box,
    filter: string,
    calib: Calib,
    visit: int,
    ccd: int,
    camera: string,
    control: AstromControl)

  /** AddImage's arguments for reference r: WCS and box from the metadata, filter from the data id. */
  function AddImageFor(r: DataRef, sources: seq<Record>, control: AstromControl): AddImageCall {
    AddImageCall(sources, MetadataWcs(r.metadata), r.metadata, MetadataBox(r.metadata),
                 r.dataId.filter, r.calib, r.dataId.visit, r.dataId.ccd, r.camera, control)
  }

  function AddImageCalls(refs: seq<DataRef>, ps: seq<Pick>, control: AstromControl): (calls: seq<AddImageCall>)
    requires IndicesBelow(ps, |refs|)
    ensures |calls| == |ps|
  {
    seq(|ps|, j requires 0 <= j < |ps| => AddImageFor(refs[ps[j].index], ps[j].sources, control))
  }

  /** The associations object of the external library, seen through the images it is given. */
  class Associations {
    var added: seq<AddImageCall>

    constructor ()
      ensures added == []
    {
      added := [];
    }

    method AddImage(call: AddImageCall)
      modifies this
      ensures added == old(added) + [call]
    {
      added := added + [call];
    }
  }

  /**
   * The collection loop of simAstrom2.py and simAstrom3.py: select each
   * reference's sources, skip an empty selection, otherwise add the image.
   * The result is the exception that ended the loop, if any; the images
   * added before it stay added.
   */
  method CollectImages(cfg: SelectorConfig, control: AstromControl, refs: seq<DataRef>, photometry: Photometry,
                       assoc: Associations)
    returns (raised: Option<SelectError>)
    requires Readable(refs)
    modifies assoc
    ensures raised.None? <==> Picks(cfg, refs, photometry).Ok?
    ensures raised.None? ==>
      IndicesBelow(Picks(cfg, refs, photometry).value, |refs|) &&
      assoc.added == old(assoc.added) + AddImageCalls(refs, Picks(cfg, refs, photometry).value, control)
    ensures raised.Some? ==>
      Picks(cfg, refs, photometry) == Err(raised.value) &&
      exists k :: 0 <= k < |refs| && Picks(cfg, refs[..k], photometry).Ok? &&
        Selected(cfg, refs[k], photometry) == Err(raised.value) &&
        IndicesBelow(Picks(cfg, refs[..k], photometry).value, |refs|) &&
        assoc.added == old(assoc.added) + AddImageCalls(refs, Picks(cfg, refs[..k], photometry).value, control)
  {
    ghost var ps: seq<Pick> := [];
    for i := 0 to |refs|
      invariant Readable(refs[..i]) && Picks(cfg, refs[..i], photometry) == Ok(ps)
      invariant IndicesBelow(ps, i)
      invariant assoc.added == old(assoc.added) + AddImageCalls(refs, ps, control)
    {
      PicksStep(cfg, refs, i, photometry);
      var ref := refs[i];
      var newSrc := Select(cfg, ref.src, ref.calib, photometry);
      if newSrc.Err? {
        PicksPrefixErr(cfg, refs, i + 1, photometry);
        return Some(newSrc.error);
      }
      if |newSrc.value| == 0 {
        continue;
      }
      assoc.AddImage(AddImageFor(ref, newSrc.value, control));
      ps := ps + [Pick(i, newSrc.value)];
    }
    assert refs[..|refs|] == refs;
    raised := None;
  }

  /** Once a prefix of the references fails, so does every longer prefix, with the same error. */
  lemma {:induction false} PicksPrefixErr(cfg: SelectorConfig, refs: seq<DataRef>, n: nat, photometry: Photometry)
    requires Readable(refs) && n <= |refs|
    ensures Readable(refs[..n])
    ensures Picks(cfg, refs[..n], photometry).Err? ==> Picks(cfg, refs, photometry) == Picks(cfg, refs[..n], photometry)
    decreases |refs| - n
  {
    if n < |refs| {
      PicksPrefixErr(cfg, refs, n + 1, photometry);
      PicksStep(cfg, refs, n, photometry);
    } else {
      assert refs[..n] == refs;
    }
  }
}
