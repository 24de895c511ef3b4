/**
 * ExposureCatalog (C++): the per-chip star catalogs of one multi-chip
 * exposure, and their assembly into one catalog in tangent-plane
 * coordinates. Heap objects are values here; the `original` pointer of an
 * exposure star becomes the position (catalog, index) of the star it was
 * made from.
 */
module ExposureCatalogs {
  import opened Wrappers
  import opened Floats
  import opened Tables

  /** A position with its covariance: x, y, vx, vy, vxy. */
  datatype FatPoint = FatPoint(x: Float, y: Float, vx: Float, vy: Float, vxy: Float)

  datatype BaseStar = BaseStar(point: FatPoint, flux: Float)

  /** Where a star sits in the exposure catalog: `catalogs[catalog][index]`. */
  datatype StarRef = StarRef(catalog: nat, index: nat)

  /** A star in tangent-plane coordinates, the chip it was measured on, and the star it was made from. */
  datatype ExposureStar = ExposureStar(star: BaseStar, chip: int, original: StarRef)

  /** The camera layout, seen through its pixel-to-tangent-plane transformation for each chip. */
  datatype ChipArrangement = ChipArrangement(pix2TP: (int, FatPoint) -> FatPoint)

  // ---------------------------------------------------------------------------
  // Reading a calexp catalog.

  /** The prefixes of the centroid and flux fields read from a calexp catalog. */
  datatype CalexpFields = CalexpFields(centroid: string, flux: string)

  function XName(f: CalexpFields): string { f.centroid + "_x" }
  function YName(f: CalexpFields): string { f.centroid + "_y" }
  function FluxName(f: CalexpFields): string { f.flux + "_flux" }
  function XSigmaName(f: CalexpFields): string { f.centroid + "_xSigma" }
  function YSigmaName(f: CalexpFields): string { f.centroid + "_ySigma" }

  /** The schema lookups AddCalexp makes, in order, before it reads any record. */
  function CalexpLookups(f: CalexpFields): seq<Lookup> {
    [Lookup(XName(f), RealField), Lookup(YName(f), RealField), Lookup(FluxName(f), RealField),
     Lookup(XSigmaName(f), RealField), Lookup(YSigmaName(f), RealField)]
  }

  /** The covariance term a default-constructed BaseStar carries. */
  const DefaultVxy: Float := Num(0.0)

  predicate HasStarFields(f: CalexpFields, rec: Record) {
    && XName(f) in rec.reals && YName(f) in rec.reals && FluxName(f) in rec.reals
    && XSigmaName(f) in rec.reals && YSigmaName(f) in rec.reals
  }

  /** The star read from one record: position and flux copied, variances the squared errors. */
  function StarOf(f: CalexpFields, rec: Record): BaseStar
    requires HasStarFields(f, rec)
  {
    BaseStar(FatPoint(rec.reals[XName(f)], rec.reals[YName(f)],
                      Square(rec.reals[XSigmaName(f)]), Square(rec.reals[YSigmaName(f)]), DefaultVxy),
             rec.reals[FluxName(f)])
  }

  function StarsOf(f: CalexpFields, records: seq<Record>): (stars: seq<BaseStar>)
    requires forall j :: 0 <= j < |records| ==> HasStarFields(f, records[j])
    ensures |stars| == |records|
  {
    seq(|records|, j requires 0 <= j < |records| => StarOf(f, records[j]))
  }

  /** When every lookup succeeds, every record of a well-formed catalog carries the five fields. */
  lemma LookupsGiveFields(f: CalexpFields, cat: Catalog)
    requires WellFormed(cat) && AllPresent(cat.schema, CalexpLookups(f))
    ensures forall j :: 0 <= j < |cat.records| ==> HasStarFields(f, cat.records[j])
  {
    var ls := CalexpLookups(f);
    assert Has(cat.schema, ls[0].name, ls[0].kind) && Has(cat.schema, ls[1].name, ls[1].kind);
    assert Has(cat.schema, ls[2].name, ls[2].kind) && Has(cat.schema, ls[3].name, ls[3].kind);
    assert Has(cat.schema, ls[4].name, ls[4].kind);
    forall j | 0 <= j < |cat.records| ensures HasStarFields(f, cat.records[j]) {
      assert cat.records[j] in cat.records;
    }
  }

  /**
   * The stars read from a catalog: one per record, in record order, with
   * position and flux as read, variances that are squares (so never
   * negative), and the default covariance term.
   */
  lemma StarsOfRecords(f: CalexpFields, records: seq<Record>)
    requires forall j :: 0 <= j < |records| ==> HasStarFields(f, records[j])
    ensures var stars := StarsOf(f, records);
      forall j :: 0 <= j < |records| ==>
        var p := stars[j].point;
        && p.x == records[j].reals[XName(f)] && p.y == records[j].reals[YName(f)]
        && stars[j].flux == records[j].reals[FluxName(f)]
        && p.vx == Square(records[j].reals[XSigmaName(f)])
        && p.vy == Square(records[j].reals[YSigmaName(f)])
        && (p.vx.NaN? <==> records[j].reals[XSigmaName(f)].NaN?)
        && (p.vy.NaN? <==> records[j].reals[YSigmaName(f)].NaN?)
        && (p.vx.Num? ==> p.vx.v >= 0.0) && (p.vy.Num? ==> p.vy.v >= 0.0)
        && p.vxy == DefaultVxy
  {
  }

  // ---------------------------------------------------------------------------
  // The assembled catalog.

  /** The pixel star moved into the tangent plane by its chip's transformation; the flux is kept. */
  function ToTangentPlane(arrangement: ChipArrangement, chip: int, s: BaseStar): BaseStar {
    s.(point := arrangement.pix2TP(chip, s.point))
  }

  /** The exposure stars made from catalog k, measured on `chip`, in star order. */
  function ChipStars(arrangement: ChipArrangement, k: nat, chip: int, cat: seq<BaseStar>): (es: seq<ExposureStar>)
    ensures |es| == |cat|
  {
    seq(|cat|, j requires 0 <= j < |cat| => ExposureStar(ToTangentPlane(arrangement, chip, cat[j]), chip, StarRef(k, j)))
  }

  /** The exposure stars of the first n catalogs, catalog by catalog. */
  function TangentPlane(arrangement: ChipArrangement, chips: seq<int>, catalogs: seq<seq<BaseStar>>, n: nat)
    : seq<ExposureStar>
    requires n <= |chips| == |catalogs|
  {
    if n == 0 then []
    else TangentPlane(arrangement, chips, catalogs, n - 1) + ChipStars(arrangement, n - 1, chips[n - 1], catalogs[n - 1])
  }

  /** The number of stars in the first n catalogs. */
  function TotalSize(catalogs: seq<seq<BaseStar>>, n: nat): nat
    requires n <= |catalogs|
  {
    if n == 0 then 0 else TotalSize(catalogs, n - 1) + |catalogs[n - 1]|
  }

  lemma {:induction false} TotalSizeGrows(catalogs: seq<seq<BaseStar>>, k: nat, n: nat)
    requires k < n <= |catalogs|
    ensures TotalSize(catalogs, k) + |catalogs[k]| <= TotalSize(catalogs, n)
    decreases n
  {
    if k < n - 1 {
      TotalSizeGrows(catalogs, k, n - 1);
    }
  }

  /** The assembled catalog holds as many stars as the catalogs. */
  lemma {:induction false} TangentPlaneSize(arrangement: ChipArrangement, chips: seq<int>, catalogs: seq<seq<BaseStar>>, n: nat)
    requires n <= |chips| == |catalogs|
    ensures |TangentPlane(arrangement, chips, catalogs, n)| == TotalSize(catalogs, n)
  {
    if n > 0 {
      TangentPlaneSize(arrangement, chips, catalogs, n - 1);
    }
  }

  /**
   * The layout of the assembled catalog: star j of catalog k sits at the
   * total size of the catalogs before it plus j, transformed by its chip's
   * mapping, tagged with that chip and pointing back at its original.
   */
  lemma {:induction false} TangentPlaneAt(arrangement: ChipArrangement, chips: seq<int>, catalogs: seq<seq<BaseStar>>,
                                          n: nat, k: nat, j: nat)
    requires n <= |chips| == |catalogs| && k < n && j < |catalogs[k]|
    ensures TotalSize(catalogs, k) + j < |TangentPlane(arrangement, chips, catalogs, n)|
    ensures TangentPlane(arrangement, chips, catalogs, n)[TotalSize(catalogs, k) + j]
      == ExposureStar(ToTangentPlane(arrangement, chips[k], catalogs[k][j]), chips[k], StarRef(k, j))
    decreases n
  {
    TangentPlaneSize(arrangement, chips, catalogs, n);
    TotalSizeGrows(catalogs, k, n);
    var before := TangentPlane(arrangement, chips, catalogs, n - 1);
    var last := ChipStars(arrangement, n - 1, chips[n - 1], catalogs[n - 1]);
    assert TangentPlane(arrangement, chips, catalogs, n) == before + last;
    TangentPlaneSize(arrangement, chips, catalogs, n - 1);
    if k < n - 1 {
      TotalSizeGrows(catalogs, k, n - 1);
      TangentPlaneAt(arrangement, chips, catalogs, n - 1, k, j);
    } else {
      assert (before + last)[TotalSize(catalogs, k) + j] == last[j];
    }
  }

  /**
   * Every star of the assembled catalog points back at a star that exists,
   * carries the chip of that star's catalog, and is that star moved into the
   * tangent plane with its flux unchanged.
   */
  lemma {:induction false} TangentPlaneOriginals(arrangement: ChipArrangement, chips: seq<int>, catalogs: seq<seq<BaseStar>>, n: nat)
    requires n <= |chips| == |catalogs|
    ensures forall e :: e in TangentPlane(arrangement, chips, catalogs, n) ==>
      && e.original.catalog < n && e.original.index < |catalogs[e.original.catalog]|
      && e.chip == chips[e.original.catalog]
      && e.star == ToTangentPlane(arrangement, e.chip, catalogs[e.original.catalog][e.original.index])
      && e.star.flux == catalogs[e.original.catalog][e.original.index].flux
  {
    if n > 0 {
      TangentPlaneOriginals(arrangement, chips, catalogs, n - 1);
      var before := TangentPlane(arrangement, chips, catalogs, n - 1);
      var last := ChipStars(arrangement, n - 1, chips[n - 1], catalogs[n - 1]);
      forall e | e in TangentPlane(arrangement, chips, catalogs, n)
        ensures e.original.catalog < n && e.original.index < |catalogs[e.original.catalog]|
        ensures e.chip == chips[e.original.catalog]
        ensures e.star == ToTangentPlane(arrangement, e.chip, catalogs[e.original.catalog][e.original.index])
      {
        assert e in before + last;
        if e !in before {
          var j :| 0 <= j < |last| && last[j] == e;
        }
      }
    }
  }

  // ---------------------------------------------------------------------------
  // Looking a chip up.

  /** The first position of `chip` among the chips, if any. */
  function FirstIndex(chips: seq<int>, chip: int): (r: Option<nat>)
    ensures r.None? <==> chip !in chips
    ensures r.Some? ==> r.value < |chips| && chips[r.value] == chip && forall k :: 0 <= k < r.value ==> chips[k] != chip
  {
    if chips == [] then None
    else if chips[0] == chip then Some(0)
    else
      match FirstIndex(chips[1..], chip)
      case None => None
      case Some(k) => Some(k + 1)
  }

  /**
   * Adding a chip does not change where the chips already present are found:
   * a chip added a second time is still found at its first catalog.
   */
  lemma {:induction false} FirstIndexAppend(chips: seq<int>, c: int, chip: int)
    ensures FirstIndex(chips + [c], chip) ==
      if chip in chips then FirstIndex(chips, chip) else if chip == c then Some(|chips|) else None
  {
    var r := FirstIndex(chips + [c], chip);
    assert (chips + [c])[|chips|] == c;
    if chip in chips {
      var k := FirstIndex(chips, chip).value;
      assert (chips + [c])[k] == chip;
      assert forall i :: 0 <= i < k ==> (chips + [c])[i] == chips[i];
      assert r.Some? && r.value <= k;
    } else if chip == c {
      assert forall i :: 0 <= i < |chips| ==> (chips + [c])[i] == chips[i] != chip;
    } else {
      assert forall i :: 0 <= i < |chips| + 1 ==> (chips + [c])[i] != chip;
    }
  }

  // ---------------------------------------------------------------------------
  // The classes.

  /** The caller's output list of exposure stars. */
  class ExposureStarList {
    var stars: seq<ExposureStar>

    constructor ()
      ensures stars == []
    {
      stars := [];
    }

    method Clear()
      modifies this
      ensures stars == []
    {
      stars := [];
    }

    method PushBack(e: ExposureStar)
      modifies this
      ensures stars == old(stars) + [e]
    {
      stars := stars + [e];
    }
  }

  class ExposureCatalog {
    var chips: seq<int>
    var catalogs: seq<seq<BaseStar>>
    const arrangement: ChipArrangement

    /** The chips and the catalogs are parallel. */
    ghost predicate Valid()
      reads this
    {
      |chips| == |catalogs|
    }

    constructor (a: ChipArrangement)
      ensures Valid() && chips == [] && catalogs == [] && arrangement == a
    {
      arrangement := a;
      chips := [];
      catalogs := [];
    }

    /**
     * Appends the catalog read from `cat` and its chip. The centroid and flux
     * field prefixes, fixed strings in the C++ body, are the parameter `f`.
     * A failed schema lookup is the name reported in `missing`, and then
     * nothing changes.
     */
    method AddCalexp(f: CalexpFields, cat: Catalog, chip: int) returns (missing: Option<string>)
      requires Valid() && WellFormed(cat)
      modifies this
      ensures Valid()
      ensures missing == FirstMissing(cat.schema, CalexpLookups(f))
      ensures missing.Some? ==> chips == old(chips) && catalogs == old(catalogs)
      ensures missing.None? ==>
        && (forall j :: 0 <= j < |cat.records| ==> HasStarFields(f, cat.records[j]))
        && chips == old(chips) + [chip]
        && catalogs == old(catalogs) + [StarsOf(f, cat.records)]
    {
      missing := FirstMissing(cat.schema, CalexpLookups(f));
      if missing.Some? {
        return;
      }
      LookupsGiveFields(f, cat);
      catalogs := catalogs + [[]];
      var last := |catalogs| - 1;
      for i := 0 to |cat.records|
        invariant chips == old(chips)
        invariant |catalogs| == last + 1 && catalogs[..last] == old(catalogs)
        invariant catalogs[last] == StarsOf(f, cat.records[..i])
      {
        var rec := cat.records[i];
        var s := BaseStar(FatPoint(rec.reals[XName(f)], rec.reals[YName(f)],
                                   Square(rec.reals[XSigmaName(f)]), Square(rec.reals[YSigmaName(f)]), DefaultVxy),
                          rec.reals[FluxName(f)]);
        assert StarsOf(f, cat.records[..i + 1]) == StarsOf(f, cat.records[..i]) + [s];
        catalogs := catalogs[last := catalogs[last] + [s]];
      }
      assert cat.records[..|cat.records|] == cat.records;
      assert catalogs == old(catalogs) + [StarsOf(f, cat.records)];
      // chip i goes with catalog i
      chips := chips + [chip];
    }

    /** Refills `out` with every catalog's stars in tangent-plane coordinates, chip by chip. */
    method TangentPlaneCatalog(out: ExposureStarList)
      requires Valid()
      modifies out
      ensures out.stars == TangentPlane(arrangement, chips, catalogs, |chips|)
    {
      out.Clear();
      for k := 0 to |chips|
        invariant out.stars == TangentPlane(arrangement, chips, catalogs, k)
      {
        var chip := chips[k];
        var cat := catalogs[k];
        ghost var before := out.stars;
        ghost var made := ChipStars(arrangement, k, chip, cat);
        for j := 0 to |cat|
          invariant out.stars == before + made[..j]
        {
          var es := ExposureStar(cat[j], chip, StarRef(k, j));
          es := es.(star := es.star.(point := arrangement.pix2TP(chip, es.star.point)));  // to degrees in the tangent plane
          assert made[..j + 1] == made[..j] + [es];
          out.PushBack(es);
        }
        assert made[..|cat|] == made;
      }
    }

    /** The catalog, as read, of the first catalog added for `chip`; None when the chip was never added. */
    method ChipCatalog(chip: int) returns (r: Option<seq<BaseStar>>)
      requires Valid()
      ensures r.None? <==> chip !in chips
      ensures r.Some? ==> r.value == catalogs[FirstIndex(chips, chip).value]
    {
      for k := 0 to |chips|
        invariant forall i :: 0 <= i < k ==> chips[i] != chip
      {
        if chips[k] == chip {
          return Some(catalogs[k]);
        }
      }
      return None;
    }

    /** The arrangement the catalog was built with. */
    function Arrangement(): (a: ChipArrangement)
      ensures a == arrangement
    {
      arrangement
    }

    /** The chips, in the order of the AddCalexp calls that added them. */
    function Chips(): (cs: seq<int>)
      reads this
      ensures cs == chips
    {
      chips
    }
  }
}
