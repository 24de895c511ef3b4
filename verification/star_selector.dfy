/**
 * StarSelector.select: the quality gate that keeps the sources of one
 * exposure's catalog that are trustworthy enough to constrain the
 * astrometric fit. The three versions of the task share this body; they
 * differ only in the magnitude limit (a parameter in simAstrom3.py, the
 * constant 22.5 in simAstrom2.py and simAstrom.py).
 */
module StarSelector {
  import opened Wrappers
  import opened Floats
  import opened Tables

  /** Cuts that every version applies besides the magnitude limit. */
  const MaxMagErr: real := 0.1
  const MinSignalToNoise: real := 10.0

  /** The default of StarSelectorConfig.badFlags. */
  const DefaultBadFlags: seq<string> := [
    "base_PixelFlags_flag_saturated",
    "base_PixelFlags_flag_cr",
    "base_PixelFlags_flag_interpolated",
    "base_SdssCentroid_flag",
    "base_SdssShape_flag"]

  datatype SelectorConfig = SelectorConfig(
    badFlags: seq<string>,
    fluxField: string,
    maxMag: real,
    centroid: string,
    shape: string)

  /** An exposure's photometric calibration, known only by identity. */
  datatype Calib = Calib(id: nat)

  /** `calib.getMagnitude(flux, fluxErr)`, which returns (mag, magErr): left uninterpreted. */
  type Photometry = (Calib, Float, Float) -> (Float, Float)

  /** The exceptions select can raise: a schema lookup that fails, or `flux/fluxErr` with a zero error. */
  datatype SelectError = MissingField(name: string) | ZeroDivision

  /** The gate that turned a source away. */
  datatype Gate = BadFlag | NegativeFlux | Faint | Blend | MultiplePeaks | BadCovariance

  datatype Verdict = Accept | Reject(gate: Gate) | Raise(error: SelectError)

  function FluxName(cfg: SelectorConfig): string { cfg.fluxField + "_flux" }
  function FluxErrName(cfg: SelectorConfig): string { cfg.fluxField + "_fluxSigma" }
  function FluxFlagName(cfg: SelectorConfig): string { cfg.fluxField + "_flag" }
  const ParentName: string := "parent"

  /** The flag keys tested on every source: the configured bad flags, then the flux field's own flag. */
  function FlagKeys(cfg: SelectorConfig): seq<string> {
    cfg.badFlags + [FluxFlagName(cfg)]
  }

  function FlagLookups(names: seq<string>): seq<Lookup> {
    seq(|names|, i requires 0 <= i < |names| => Lookup(names[i], FlagField))
  }

  /** The schema lookups made once per catalog, before the first source, in source order. */
  function CatalogLookups(cfg: SelectorConfig): seq<Lookup> {
    [Lookup(FluxName(cfg), RealField), Lookup(FluxErrName(cfg), RealField), Lookup(ParentName, IntField)]
    + FlagLookups(cfg.badFlags)
    + [Lookup(FluxFlagName(cfg), FlagField)]
  }

  function XSigmaName(cfg: SelectorConfig): string { cfg.centroid + "_xSigma" }
  function YSigmaName(cfg: SelectorConfig): string { cfg.centroid + "_ySigma" }
  function XxName(cfg: SelectorConfig): string { cfg.shape + "_xx" }
  function YyName(cfg: SelectorConfig): string { cfg.shape + "_yy" }
  function XyName(cfg: SelectorConfig): string { cfg.shape + "_xy" }

  /** The lookups made by name on each source that reaches the covariance gate, in source order. */
  function SourceLookups(cfg: SelectorConfig): seq<Lookup> {
    [Lookup(XSigmaName(cfg), RealField), Lookup(YSigmaName(cfg), RealField),
     Lookup(XxName(cfg), RealField), Lookup(YyName(cfg), RealField), Lookup(XyName(cfg), RealField)]
  }

  /** Every per-catalog lookup succeeds. */
  predicate Resolved(cfg: SelectorConfig, schema: Schema) {
    && Has(schema, FluxName(cfg), RealField)
    && Has(schema, FluxErrName(cfg), RealField)
    && Has(schema, ParentName, IntField)
    && forall k :: k in FlagKeys(cfg) ==> Has(schema, k, FlagField)
  }

  /** Every per-source lookup succeeds. */
  predicate ShapeFieldsPresent(cfg: SelectorConfig, schema: Schema) {
    && Has(schema, XSigmaName(cfg), RealField)
    && Has(schema, YSigmaName(cfg), RealField)
    && Has(schema, XxName(cfg), RealField)
    && Has(schema, YyName(cfg), RealField)
    && Has(schema, XyName(cfg), RealField)
  }

  lemma CatalogLookupsResolved(cfg: SelectorConfig, schema: Schema)
    ensures AllPresent(schema, CatalogLookups(cfg)) <==> Resolved(cfg, schema)
  {
    var ls := CatalogLookups(cfg);
    var n := |cfg.badFlags|;
    assert |ls| == n + 4;
    assert forall i :: 3 <= i < n + 3 ==> ls[i] == Lookup(cfg.badFlags[i - 3], FlagField);
    assert ls[n + 3] == Lookup(FluxFlagName(cfg), FlagField);
    if Resolved(cfg, schema) {
      forall i | 0 <= i < |ls| ensures Has(schema, ls[i].name, ls[i].kind) {
        if 3 <= i < n + 3 {
          assert cfg.badFlags[i - 3] in FlagKeys(cfg);
        }
      }
    }
    if AllPresent(schema, ls) {
      assert Has(schema, ls[0].name, ls[0].kind) && Has(schema, ls[1].name, ls[1].kind);
      assert Has(schema, ls[2].name, ls[2].kind);
      forall k | k in FlagKeys(cfg) ensures Has(schema, k, FlagField) {
        var j :| 0 <= j < |FlagKeys(cfg)| && FlagKeys(cfg)[j] == k;
        assert ls[j + 3].name == k;
      }
    }
  }

  lemma SourceLookupsPresent(cfg: SelectorConfig, schema: Schema)
    ensures AllPresent(schema, SourceLookups(cfg)) <==> ShapeFieldsPresent(cfg, schema)
  {
    var ls := SourceLookups(cfg);
    if AllPresent(schema, ls) {
      assert Has(schema, ls[0].name, ls[0].kind) && Has(schema, ls[1].name, ls[1].kind);
      assert Has(schema, ls[2].name, ls[2].kind) && Has(schema, ls[3].name, ls[3].kind);
      assert Has(schema, ls[4].name, ls[4].kind);
    }
  }

  /** Some flag among `keys` is set on the record. */
  predicate AnyFlagSet(rec: Record, keys: seq<string>) {
    exists k :: k in keys && k in rec.flags && rec.flags[k]
  }

  /** `vxy*vxy` with `vxy = mxy*(vx+vy)/(mxx+myy)` evaluated in numpy arithmetic. */
  datatype CovSquared = Finite(v: real) | Infinite | Undefined

  /**
   * A zero denominator yields an infinite vxy (its square is +inf whatever the
   * sign) unless the numerator is zero too, in which case vxy is NaN.
   */
  function ImpliedCovSquared(vx: Float, vy: Float, mxx: Float, myy: Float, mxy: Float): CovSquared {
    var num := Times(mxy, Plus(vx, vy));
    var den := Plus(mxx, myy);
    if num.NaN? || den.NaN? then Undefined
    else if den.v == 0.0 then (if num.v == 0.0 then Undefined else Infinite)
    else Finite((num.v / den.v) * (num.v / den.v))
  }

  /** `c > p` under IEEE comparison. */
  predicate Exceeds(c: CovSquared, p: Float) {
    match c
    case Undefined => false
    case Infinite => p.Num?
    case Finite(q) => p.Num? && q > p.v
  }

  /** `vx < 0 or vy < 0 or (vxy*vxy) > (vx*vy) or np.isnan(vx) or np.isnan(vy)`. */
  predicate CovarianceRejects(xSigma: Float, ySigma: Float, mxx: Float, myy: Float, mxy: Float) {
    var vx := Square(xSigma);
    var vy := Square(ySigma);
    || Below(vx, 0.0) || Below(vy, 0.0)
    || Exceeds(ImpliedCovSquared(vx, vy, mxx, myy, mxy), Times(vx, vy))
    || vx.NaN? || vy.NaN?
  }

  /** What the loop body of select does with one source, once the catalog's keys are resolved. */
  function Judge(cfg: SelectorConfig, schema: Schema, rec: Record, calib: Calib, photometry: Photometry): Verdict
    requires Resolved(cfg, schema) && Conforms(schema, rec)
  {
    if AnyFlagSet(rec, FlagKeys(cfg)) then Reject(BadFlag)
    else
      var flux := rec.reals[FluxName(cfg)];
      if Below(flux, 0.0) then Reject(NegativeFlux)
      else
        var fluxErr := rec.reals[FluxErrName(cfg)];
        var (mag, magErr) := photometry(calib, flux, fluxErr);
        if Above(mag, cfg.maxMag) || Above(magErr, MaxMagErr) then Reject(Faint)
        else if fluxErr == Num(0.0) then Raise(ZeroDivision)
        else if Below(Quotient(flux, fluxErr), MinSignalToNoise) then Reject(Faint)
        else if rec.ints[ParentName] != 0 then Reject(Blend)
        else if rec.peaks.Some? && rec.peaks.value > 1 then Reject(MultiplePeaks)
        else
          var missing := FirstMissing(schema, SourceLookups(cfg));
          if missing.Some? then Raise(MissingField(missing.value))
          else
            SourceLookupsPresent(cfg, schema);
            if CovarianceRejects(rec.reals[XSigmaName(cfg)], rec.reals[YSigmaName(cfg)],
                                 rec.reals[XxName(cfg)], rec.reals[YyName(cfg)], rec.reals[XyName(cfg)])
            then Reject(BadCovariance)
            else Accept
  }

  /**
   * The sources kept from `records`, scanned in order; the first source whose
   * examination raises ends the scan with that error.
   */
  function Scan(cfg: SelectorConfig, schema: Schema, records: seq<Record>, calib: Calib, photometry: Photometry)
    : Result<seq<Record>, SelectError>
    requires Resolved(cfg, schema) && AllConform(schema, records)
  {
    if records == [] then Ok([])
    else
      var last := records[|records| - 1];
      match Scan(cfg, schema, records[..|records| - 1], calib, photometry)
      case Err(e) => Err(e)
      case Ok(kept) =>
        match Judge(cfg, schema, last, calib, photometry)
        case Raise(e) => Err(e)
        case Accept => Ok(kept + [last])
        case Reject(_) => Ok(kept)
  }

  /** The result of `select(srcCat, calib)`: a catalog-level lookup failure first, then the scan. */
  function Selection(cfg: SelectorConfig, cat: Catalog, calib: Calib, photometry: Photometry)
    : Result<seq<Record>, SelectError>
    requires WellFormed(cat)
  {
    var missing := FirstMissing(cat.schema, CatalogLookups(cfg));
    if missing.Some? then Err(MissingField(missing.value))
    else
      CatalogLookupsResolved(cfg, cat.schema);
      Scan(cfg, cat.schema, cat.records, calib, photometry)
  }

  /** `a` is obtained from `b` by deleting elements: order kept, no element used twice. */
  predicate IsSubsequence<T(==)>(a: seq<T>, b: seq<T>)
    decreases |b|
  {
    if b == [] then a == []
    else
      || IsSubsequence(a, b[..|b| - 1])
      || (a != [] && a[|a| - 1] == b[|b| - 1] && IsSubsequence(a[..|a| - 1], b[..|b| - 1]))
  }

  lemma {:induction false} SubsequenceMultiset<T>(a: seq<T>, b: seq<T>)
    requires IsSubsequence(a, b)
    ensures multiset(a) <= multiset(b) && |a| <= |b|
  {
    if b != [] {
      var b' := b[..|b| - 1];
      assert b == b' + [b[|b| - 1]];
      if IsSubsequence(a, b') {
        SubsequenceMultiset(a, b');
      } else {
        var a' := a[..|a| - 1];
        assert a == a' + [a[|a| - 1]];
        SubsequenceMultiset(a', b');
      }
    }
  }

  // ---------------------------------------------------------------------------
  // The method, as the program runs it.

  /**
   * The per-catalog lookups: `fluxKey`, `fluxErrKey`, `parentKey`, one key per
   * configured bad flag, then the flux flag, appended last.
   */
  method ResolveKeys(cfg: SelectorConfig, schema: Schema) returns (r: Result<seq<string>, SelectError>)
    ensures r.Ok? <==> Resolved(cfg, schema)
    ensures r.Ok? ==> r.value == FlagKeys(cfg)
    ensures r.Err? ==> r.error.MissingField? && FirstMissing(schema, CatalogLookups(cfg)) == Some(r.error.name)
  {
    ghost var ls := CatalogLookups(cfg);
    CatalogLookupsResolved(cfg, schema);
    if !Has(schema, FluxName(cfg), RealField) {
      FirstMissingAt(schema, ls, 0);
      return Err(MissingField(FluxName(cfg)));
    }
    if !Has(schema, FluxErrName(cfg), RealField) {
      FirstMissingAt(schema, ls, 1);
      return Err(MissingField(FluxErrName(cfg)));
    }
    if !Has(schema, ParentName, IntField) {
      FirstMissingAt(schema, ls, 2);
      return Err(MissingField(ParentName));
    }
    var flagKeys: seq<string> := [];
    for i := 0 to |cfg.badFlags|
      invariant flagKeys == cfg.badFlags[..i]
      invariant forall j :: 0 <= j < i ==> Has(schema, cfg.badFlags[j], FlagField)
    {
      if !Has(schema, cfg.badFlags[i], FlagField) {
        CatalogPrefixPresent(cfg, schema, i);
        FirstMissingAt(schema, ls, i + 3);
        return Err(MissingField(cfg.badFlags[i]));
      }
      flagKeys := flagKeys + [cfg.badFlags[i]];
    }
    assert flagKeys == cfg.badFlags;
    if !Has(schema, FluxFlagName(cfg), FlagField) {
      CatalogPrefixPresent(cfg, schema, |cfg.badFlags|);
      FirstMissingAt(schema, ls, |cfg.badFlags| + 3);
      return Err(MissingField(FluxFlagName(cfg)));
    }
    flagKeys := flagKeys + [FluxFlagName(cfg)];
    r := Ok(flagKeys);
  }

  /** The lookups before the m-th flag key all succeed when the fields and the first m bad flags are there. */
  lemma CatalogPrefixPresent(cfg: SelectorConfig, schema: Schema, m: nat)
    requires m <= |cfg.badFlags|
    requires Has(schema, FluxName(cfg), RealField) && Has(schema, FluxErrName(cfg), RealField)
    requires Has(schema, ParentName, IntField)
    requires forall j :: 0 <= j < m ==> Has(schema, cfg.badFlags[j], FlagField)
    ensures m + 3 < |CatalogLookups(cfg)| && AllPresent(schema, CatalogLookups(cfg)[..m + 3])
    ensures CatalogLookups(cfg)[m + 3] ==
      if m < |cfg.badFlags| then Lookup(cfg.badFlags[m], FlagField) else Lookup(FluxFlagName(cfg), FlagField)
  {
    var ls := CatalogLookups(cfg);
    var prefix := ls[..m + 3];
    forall j | 0 <= j < m + 3 ensures Has(schema, prefix[j].name, prefix[j].kind) {
      if j >= 3 { assert prefix[j] == Lookup(cfg.badFlags[j - 3], FlagField); }
    }
  }

  lemma {:induction false} FirstMissingAt(schema: Schema, lookups: seq<Lookup>, i: nat)
    requires i < |lookups| && AllPresent(schema, lookups[..i])
    requires !Has(schema, lookups[i].name, lookups[i].kind)
    ensures FirstMissing(schema, lookups) == Some(lookups[i].name)
  {
    if i > 0 {
      assert Has(schema, lookups[..i][0].name, lookups[..i][0].kind);
      assert lookups[1..][..i - 1] == lookups[..i][1..];
      FirstMissingAt(schema, lookups[1..], i - 1);
    }
  }

  /**
   * The inner flag loop: `rej` is reset before each key is tested and the loop
   * stops at the first key that is set. `carried` is the value `rej` still holds
   * from the previous source; it never decides the outcome because the key
   * list always ends with the flux flag.
   */
  method FlagRejects(rec: Record, keys: seq<string>, carried: bool) returns (rej: bool)
    requires |keys| > 0
    requires forall k :: k in keys ==> k in rec.flags
    ensures rej <==> AnyFlagSet(rec, keys)
  {
    rej := carried;
    var i := 0;
    while i < |keys|
      invariant 0 <= i <= |keys|
      invariant i > 0 ==> !rej
      invariant forall j :: 0 <= j < i ==> !rec.flags[keys[j]]
    {
      rej := false;
      if rec.flags[keys[i]] {
        rej := true;
        break;
      }
      i := i + 1;
    }
  }

  /** A raised error in a prefix of the records is the error of the whole scan. */
  lemma {:induction false} ScanErrExtends(cfg: SelectorConfig, schema: Schema, records: seq<Record>, n: nat,
                                          calib: Calib, photometry: Photometry)
    requires Resolved(cfg, schema) && AllConform(schema, records) && n <= |records|
    requires Scan(cfg, schema, records[..n], calib, photometry).Err?
    ensures Scan(cfg, schema, records, calib, photometry) == Scan(cfg, schema, records[..n], calib, photometry)
    decreases |records| - n
  {
    if n < |records| {
      assert records[..n + 1][..n] == records[..n];
      ScanErrExtends(cfg, schema, records, n + 1, calib, photometry);
    } else {
      assert records[..n] == records;
    }
  }

  /**
   * The body of select's loop for one source: the verdict it reaches and the
   * value `rej` holds afterwards, which the next source's flag loop starts from.
   */
  method Examine(cfg: SelectorConfig, schema: Schema, flagKeys: seq<string>, src: Record,
                 calib: Calib, photometry: Photometry, carried: bool)
    returns (verdict: Verdict, rej: bool)
    requires Resolved(cfg, schema) && Conforms(schema, src) && flagKeys == FlagKeys(cfg)
    ensures verdict == Judge(cfg, schema, src, calib, photometry)
  {
    rej := FlagRejects(src, flagKeys, carried);
    if rej {
      return Reject(BadFlag), rej;
    }
    var flux := src.reals[FluxName(cfg)];
    if Below(flux, 0.0) {
      return Reject(NegativeFlux), rej;
    }
    var fluxErr := src.reals[FluxErrName(cfg)];
    var (mag, magErr) := photometry(calib, flux, fluxErr);
    if Above(mag, cfg.maxMag) || Above(magErr, MaxMagErr) {
      return Reject(Faint), rej;
    }
    if fluxErr == Num(0.0) {
      return Raise(ZeroDivision), rej;
    }
    if Below(Quotient(flux, fluxErr), MinSignalToNoise) {
      return Reject(Faint), rej;
    }
    if src.ints[ParentName] != 0 {
      return Reject(Blend), rej;
    }
    if src.peaks.Some? && src.peaks.value > 1 {
      return Reject(MultiplePeaks), rej;
    }
    var missing := FirstMissing(schema, SourceLookups(cfg));
    if missing.Some? {
      return Raise(MissingField(missing.value)), rej;
    }
    SourceLookupsPresent(cfg, schema);
    if CovarianceRejects(src.reals[XSigmaName(cfg)], src.reals[YSigmaName(cfg)],
                         src.reals[XxName(cfg)], src.reals[YyName(cfg)], src.reals[XyName(cfg)]) {
      return Reject(BadCovariance), rej;
    }
    verdict := Accept;
  }

  /** `StarSelector.select(srcCat, calib)`. The input catalog is a value and is not changed. */
  method Select(cfg: SelectorConfig, cat: Catalog, calib: Calib, photometry: Photometry)
    returns (r: Result<seq<Record>, SelectError>)
    requires WellFormed(cat)
    ensures r == Selection(cfg, cat, calib, photometry)
  {
    var schema := cat.schema;
    var resolved := ResolveKeys(cfg, schema);
    if resolved.Err? {
      return Err(resolved.error);
    }
    var flagKeys := resolved.value;
    CatalogLookupsResolved(cfg, schema);
    var newCat: seq<Record> := [];
    var rej := false;  // unbound in the Python code until the first flag test
    for i := 0 to |cat.records|
      invariant Scan(cfg, schema, cat.records[..i], calib, photometry) == Ok(newCat)
    {
      var src := cat.records[i];
      assert cat.records[..i + 1][..i] == cat.records[..i];
      assert src in cat.records;
      var verdict;
      verdict, rej := Examine(cfg, schema, flagKeys, src, calib, photometry, rej);
      match verdict
      case Raise(e) =>
        ScanErrExtends(cfg, schema, cat.records, i + 1, calib, photometry);
        return Err(e);
      case Reject(_) =>
      case Accept =>
        newCat := newCat + [src];
    }
    assert cat.records[..|cat.records|] == cat.records;
    r := Ok(newCat);
  }

  // ---------------------------------------------------------------------------
  // What the selection promises.

  lemma {:induction false} ScanProperties(cfg: SelectorConfig, schema: Schema, records: seq<Record>,
                                          calib: Calib, photometry: Photometry, out: seq<Record>)
    requires Resolved(cfg, schema) && AllConform(schema, records)
    requires Scan(cfg, schema, records, calib, photometry) == Ok(out)
    ensures IsSubsequence(out, records)
    ensures forall x :: x in out <==> x in records && Judge(cfg, schema, x, calib, photometry) == Accept
    ensures forall i :: 0 <= i < |records| ==> !Judge(cfg, schema, records[i], calib, photometry).Raise?
  {
    if records != [] {
      var prefix := records[..|records| - 1];
      var last := records[|records| - 1];
      assert records == prefix + [last];
      var kept := Scan(cfg, schema, prefix, calib, photometry).value;
      ScanProperties(cfg, schema, prefix, calib, photometry, kept);
      assert prefix[..|prefix|] == prefix;
    }
  }

  /** One step of the scan: the last source is appended iff it is accepted. */
  lemma ScanLast(cfg: SelectorConfig, schema: Schema, records: seq<Record>,
                 calib: Calib, photometry: Photometry, out: seq<Record>)
    requires Resolved(cfg, schema) && AllConform(schema, records) && records != []
    requires Scan(cfg, schema, records, calib, photometry) == Ok(out)
    ensures AllConform(schema, records[..|records| - 1])
    ensures Scan(cfg, schema, records[..|records| - 1], calib, photometry).Ok?
    ensures var kept := Scan(cfg, schema, records[..|records| - 1], calib, photometry).value;
            out == if Judge(cfg, schema, records[|records| - 1], calib, photometry) == Accept
                   then kept + [records[|records| - 1]] else kept
  {
  }

  /**
   * The scan drops nothing it accepts: a source the examination accepts is kept
   * as many times as it occurs, and any other source is not kept at all.
   */
  lemma {:induction false} ScanCount(cfg: SelectorConfig, schema: Schema, records: seq<Record>,
                                     calib: Calib, photometry: Photometry, out: seq<Record>, x: Record)
    requires Resolved(cfg, schema) && AllConform(schema, records)
    requires Scan(cfg, schema, records, calib, photometry) == Ok(out)
    ensures multiset(out)[x] ==
              (if x in records && Judge(cfg, schema, x, calib, photometry) == Accept
               then multiset(records)[x] else 0)
  {
    if records != [] {
      var prefix := records[..|records| - 1];
      var last := records[|records| - 1];
      ScanLast(cfg, schema, records, calib, photometry, out);
      var kept := Scan(cfg, schema, prefix, calib, photometry).value;
      ScanCount(cfg, schema, prefix, calib, photometry, kept, x);
      assert records == prefix + [last];
      assert multiset(records) == multiset(prefix) + multiset{last};
      if Judge(cfg, schema, last, calib, photometry) == Accept {
        assert multiset(out) == multiset(kept) + multiset{last};
      }
    }
  }

  lemma ScanCounts(cfg: SelectorConfig, schema: Schema, records: seq<Record>,
                   calib: Calib, photometry: Photometry, out: seq<Record>)
    requires Resolved(cfg, schema) && AllConform(schema, records)
    requires Scan(cfg, schema, records, calib, photometry) == Ok(out)
    ensures forall x :: multiset(out)[x] ==
              (if x in records && Judge(cfg, schema, x, calib, photometry) == Accept
               then multiset(records)[x] else 0)
  {
    forall x {
      ScanCount(cfg, schema, records, calib, photometry, out, x);
    }
  }

  /**
   * Select keeps an order-preserving sub-sequence of its input: every
   * occurrence of a source its own examination accepts, and nothing else.
   */
  lemma SelectionIsFilter(cfg: SelectorConfig, cat: Catalog, calib: Calib, photometry: Photometry)
    requires WellFormed(cat)
    requires Selection(cfg, cat, calib, photometry).Ok?
    ensures Resolved(cfg, cat.schema)
    ensures var out := Selection(cfg, cat, calib, photometry).value;
            && IsSubsequence(out, cat.records)
            && multiset(out) <= multiset(cat.records)
            && (forall x :: x in out <==> x in cat.records && Judge(cfg, cat.schema, x, calib, photometry) == Accept)
            && forall x :: multiset(out)[x] ==
                 (if x in cat.records && Judge(cfg, cat.schema, x, calib, photometry) == Accept
                  then multiset(cat.records)[x] else 0)
  {
    CatalogLookupsResolved(cfg, cat.schema);
    var out := Selection(cfg, cat, calib, photometry).value;
    ScanProperties(cfg, cat.schema, cat.records, calib, photometry, out);
    ScanCounts(cfg, cat.schema, cat.records, calib, photometry, out);
    SubsequenceMultiset(out, cat.records);
  }

  lemma {:induction false} ScanOfKept(cfg: SelectorConfig, schema: Schema, records: seq<Record>,
                                      calib: Calib, photometry: Photometry, out: seq<Record>)
    requires Resolved(cfg, schema) && AllConform(schema, records)
    requires Scan(cfg, schema, records, calib, photometry) == Ok(out)
    ensures AllConform(schema, out)
    ensures Scan(cfg, schema, out, calib, photometry) == Ok(out)
  {
    ScanProperties(cfg, schema, records, calib, photometry, out);
    if records != [] {
      var prefix := records[..|records| - 1];
      var last := records[|records| - 1];
      var kept := Scan(cfg, schema, prefix, calib, photometry).value;
      ScanOfKept(cfg, schema, prefix, calib, photometry, kept);
      if out != kept {
        assert out == kept + [last];
        assert out[..|out| - 1] == kept;
      }
    }
  }

  /** Filtering the output again, with the same calibration, returns it unchanged. */
  lemma SelectionIdempotent(cfg: SelectorConfig, cat: Catalog, calib: Calib, photometry: Photometry)
    requires WellFormed(cat)
    requires Selection(cfg, cat, calib, photometry).Ok?
    ensures var out := Selection(cfg, cat, calib, photometry).value;
            && WellFormed(Catalog(cat.schema, out))
            && Selection(cfg, Catalog(cat.schema, out), calib, photometry) == Ok(out)
  {
    CatalogLookupsResolved(cfg, cat.schema);
    var out := Selection(cfg, cat, calib, photometry).value;
    ScanOfKept(cfg, cat.schema, cat.records, calib, photometry, out);
  }

  /**
   * Raising the magnitude limit changes one source's verdict only from a
   * "too faint" rejection to something else.
   */
  lemma JudgeMagLimit(cfg: SelectorConfig, schema: Schema, rec: Record, calib: Calib, photometry: Photometry, m: real)
    requires Resolved(cfg, schema) && Conforms(schema, rec) && cfg.maxMag <= m
    ensures Resolved(cfg.(maxMag := m), schema)
    ensures var strict := Judge(cfg, schema, rec, calib, photometry);
      strict == Judge(cfg.(maxMag := m), schema, rec, calib, photometry) || strict == Reject(Faint)
  {
    assert FlagKeys(cfg.(maxMag := m)) == FlagKeys(cfg);
  }

  lemma {:induction false} ScanMagLimit(cfg: SelectorConfig, schema: Schema, records: seq<Record>,
                                        calib: Calib, photometry: Photometry, m: real)
    requires Resolved(cfg, schema) && AllConform(schema, records) && cfg.maxMag <= m
    requires Resolved(cfg.(maxMag := m), schema)
    requires Scan(cfg.(maxMag := m), schema, records, calib, photometry).Ok?
    ensures Scan(cfg, schema, records, calib, photometry).Ok?
    ensures IsSubsequence(Scan(cfg, schema, records, calib, photometry).value,
                          Scan(cfg.(maxMag := m), schema, records, calib, photometry).value)
  {
    var loose := cfg.(maxMag := m);
    if records == [] {
    } else {
      var prefix := records[..|records| - 1];
      var last := records[|records| - 1];
      assert last in records;
      ScanMagLimit(cfg, schema, prefix, calib, photometry, m);
      var a := Scan(cfg, schema, prefix, calib, photometry).value;
      var b := Scan(loose, schema, prefix, calib, photometry).value;
      JudgeMagLimit(cfg, schema, last, calib, photometry, m);
      var strict := Judge(cfg, schema, last, calib, photometry);
      var lax := Judge(loose, schema, last, calib, photometry);
      if lax == Accept {
        assert (b + [last])[..|b|] == b;
        if strict == Accept {
          assert (a + [last])[..|a|] == a;
        }
      }
    }
  }

  /**
   * The selection under a magnitude limit is contained, in order, in the
   * selection under any larger limit, and it cannot raise where the looser
   * selection does not.
   */
  lemma SelectionMagLimit(cfg: SelectorConfig, cat: Catalog, calib: Calib, photometry: Photometry, m: real)
    requires WellFormed(cat) && cfg.maxMag <= m
    requires Selection(cfg.(maxMag := m), cat, calib, photometry).Ok?
    ensures Selection(cfg, cat, calib, photometry).Ok?
    ensures IsSubsequence(Selection(cfg, cat, calib, photometry).value,
                          Selection(cfg.(maxMag := m), cat, calib, photometry).value)
  {
    assert CatalogLookups(cfg.(maxMag := m)) == CatalogLookups(cfg);
    CatalogLookupsResolved(cfg, cat.schema);
    CatalogLookupsResolved(cfg.(maxMag := m), cat.schema);
    ScanMagLimit(cfg, cat.schema, cat.records, calib, photometry, m);
  }

  lemma {:induction false} ScanErrIsFirstRaise(cfg: SelectorConfig, schema: Schema, records: seq<Record>,
                                               calib: Calib, photometry: Photometry)
    requires Resolved(cfg, schema) && AllConform(schema, records)
    requires Scan(cfg, schema, records, calib, photometry).Err?
    ensures exists i :: 0 <= i < |records| && FirstRaiseAt(cfg, schema, records, i, calib, photometry,
                                                           Scan(cfg, schema, records, calib, photometry).error)
  {
    var prefix := records[..|records| - 1];
    var e := Scan(cfg, schema, records, calib, photometry).error;
    if Scan(cfg, schema, prefix, calib, photometry).Err? {
      ScanErrIsFirstRaise(cfg, schema, prefix, calib, photometry);
      var i :| 0 <= i < |prefix| && FirstRaiseAt(cfg, schema, prefix, i, calib, photometry, e);
      assert forall j :: 0 <= j <= i ==> records[j] == prefix[j];
      assert FirstRaiseAt(cfg, schema, records, i, calib, photometry, e);
    } else {
      var n := |records| - 1;
      ScanProperties(cfg, schema, prefix, calib, photometry, Scan(cfg, schema, prefix, calib, photometry).value);
      assert forall j :: 0 <= j < n ==> records[j] == prefix[j];
      assert FirstRaiseAt(cfg, schema, records, n, calib, photometry, e);
    }
  }

  /** records[i] is the first record whose examination raises, and it raises e. */
  ghost predicate FirstRaiseAt(cfg: SelectorConfig, schema: Schema, records: seq<Record>, i: nat,
                               calib: Calib, photometry: Photometry, e: SelectError)
    requires Resolved(cfg, schema) && AllConform(schema, records)
  {
    && i < |records|
    && Judge(cfg, schema, records[i], calib, photometry) == Raise(e)
    && forall j :: 0 <= j < i ==> !Judge(cfg, schema, records[j], calib, photometry).Raise?
  }

  /**
   * Select fails exactly when a per-catalog lookup fails (whatever the
   * records: the keys are resolved before the first source), or else when
   * some source's own examination raises; the error is the first one met.
   */
  lemma SelectionErrors(cfg: SelectorConfig, cat: Catalog, calib: Calib, photometry: Photometry)
    requires WellFormed(cat)
    ensures !Resolved(cfg, cat.schema) ==>
              && FirstMissing(cat.schema, CatalogLookups(cfg)).Some?
              && Selection(cfg, cat, calib, photometry) == Err(MissingField(FirstMissing(cat.schema, CatalogLookups(cfg)).value))
    ensures Resolved(cfg, cat.schema) ==>
              (Selection(cfg, cat, calib, photometry).Err? <==>
                 exists i :: 0 <= i < |cat.records| && Judge(cfg, cat.schema, cat.records[i], calib, photometry).Raise?)
    ensures Resolved(cfg, cat.schema) && Selection(cfg, cat, calib, photometry).Err? ==>
              exists i :: 0 <= i < |cat.records|
                && FirstRaiseAt(cfg, cat.schema, cat.records, i, calib, photometry, Selection(cfg, cat, calib, photometry).error)
  {
    CatalogLookupsResolved(cfg, cat.schema);
    if Resolved(cfg, cat.schema) {
      var s := Scan(cfg, cat.schema, cat.records, calib, photometry);
      if s.Err? {
        ScanErrIsFirstRaise(cfg, cat.schema, cat.records, calib, photometry);
      } else {
        ScanProperties(cfg, cat.schema, cat.records, calib, photometry, s.value);
      }
    }
  }

  /**
   * The centroid and shape fields are looked up by name only on sources that
   * reach the covariance gate, so an empty catalog is selected without error
   * even when its schema lacks them.
   */
  lemma ShapeFieldsLookedUpPerSource(cfg: SelectorConfig, schema: Schema, calib: Calib, photometry: Photometry)
    requires Resolved(cfg, schema) && !ShapeFieldsPresent(cfg, schema)
    ensures Selection(cfg, Catalog(schema, []), calib, photometry) == Ok([])
  {
    CatalogLookupsResolved(cfg, schema);
  }

  // ---------------------------------------------------------------------------
  // The gates, one source at a time.

  /**
   * A source is accepted if and only if it passes every gate: no bad flag
   * (the flux flag included), non-negative flux, magnitude, magnitude-error
   * and signal-to-noise cuts, not a deblend child, at most one footprint peak,
   * and an implied position covariance that passes the covariance test.
   */
  lemma AcceptIffAllGates(cfg: SelectorConfig, schema: Schema, rec: Record, calib: Calib, photometry: Photometry)
    requires Resolved(cfg, schema) && ShapeFieldsPresent(cfg, schema) && Conforms(schema, rec)
    ensures var flux := rec.reals[FluxName(cfg)];
            var fluxErr := rec.reals[FluxErrName(cfg)];
            var mags := photometry(calib, flux, fluxErr);
            Judge(cfg, schema, rec, calib, photometry) == Accept <==>
              && (forall k :: k in cfg.badFlags ==> !rec.flags[k])
              && !rec.flags[FluxFlagName(cfg)]
              && !Below(flux, 0.0)
              && !Above(mags.0, cfg.maxMag)
              && !Above(mags.1, MaxMagErr)
              && fluxErr != Num(0.0)
              && !Below(Quotient(flux, fluxErr), MinSignalToNoise)
              && rec.ints[ParentName] == 0
              && (rec.peaks.None? || rec.peaks.value <= 1)
              && !CovarianceRejects(rec.reals[XSigmaName(cfg)], rec.reals[YSigmaName(cfg)],
                                    rec.reals[XxName(cfg)], rec.reals[YyName(cfg)], rec.reals[XyName(cfg)])
  {
    SourceLookupsPresent(cfg, schema);
    assert FluxFlagName(cfg) in FlagKeys(cfg);
    assert forall k :: k in cfg.badFlags ==> k in FlagKeys(cfg);
  }

  /**
   * A source with any configured bad flag set, or with its flux field's own
   * flag set, is rejected whatever its other values; the flux flag is tested
   * even when no bad flag is configured.
   */
  lemma FlagRejectsWhateverElse(cfg: SelectorConfig, schema: Schema, rec: Record, calib: Calib, photometry: Photometry)
    requires Resolved(cfg, schema) && Conforms(schema, rec)
    requires rec.flags[FluxFlagName(cfg)] || exists k :: k in cfg.badFlags && rec.flags[k]
    ensures Judge(cfg, schema, rec, calib, photometry) == Reject(BadFlag)
  {
    assert FluxFlagName(cfg) in FlagKeys(cfg);
    if !rec.flags[FluxFlagName(cfg)] {
      var k :| k in cfg.badFlags && rec.flags[k];
      assert k in FlagKeys(cfg);
    }
  }

  /**
   * With finite centroid errors and moments and a non-zero trace, the
   * covariance gate rejects exactly when vxy^2 > vx*vy, where vx, vy are the
   * squared centroid errors and vxy = mxy*(vx+vy)/(mxx+myy).
   */
  lemma CovarianceGateFinite(xs: real, ys: real, mxx: real, myy: real, mxy: real)
    requires mxx + myy != 0.0
    ensures var vx := xs * xs;
            var vy := ys * ys;
            var vxy := mxy * (vx + vy) / (mxx + myy);
            CovarianceRejects(Num(xs), Num(ys), Num(mxx), Num(myy), Num(mxy)) <==> vxy * vxy > vx * vy
  {
    assert xs * xs >= 0.0 && ys * ys >= 0.0;
  }

  /** A NaN centroid error always fails the covariance gate. */
  lemma NaNCentroidErrorRejected(xSigma: Float, ySigma: Float, mxx: Float, myy: Float, mxy: Float)
    requires xSigma.NaN? || ySigma.NaN?
    ensures CovarianceRejects(xSigma, ySigma, mxx, myy, mxy)
  {
  }

  /**
   * A NaN shape moment makes vxy NaN, and every comparison with NaN is false:
   * such a source passes the covariance gate.
   */
  lemma NaNMomentPasses(xs: real, ys: real, mxx: Float, myy: Float, mxy: Float)
    requires mxx.NaN? || myy.NaN? || mxy.NaN?
    ensures !CovarianceRejects(Num(xs), Num(ys), mxx, myy, mxy)
  {
    assert xs * xs >= 0.0 && ys * ys >= 0.0;
  }

  /**
   * With a zero trace mxx+myy, vxy is infinite when its numerator is not zero,
   * so the test vxy*vxy > vx*vy holds; with a zero numerator too, vxy is NaN
   * and the test fails.
   */
  lemma ZeroTraceCovariance(vx: real, vy: real, mxx: real, myy: real, mxy: real)
    requires mxx + myy == 0.0
    ensures Exceeds(ImpliedCovSquared(Num(vx), Num(vy), Num(mxx), Num(myy), Num(mxy)), Times(Num(vx), Num(vy)))
            <==> mxy * (vx + vy) != 0.0
  {
  }
}
