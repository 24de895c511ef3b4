# meas_simastrom: star selection, collection and fit driving

This project is a Dafny model of the driver layer of `meas_simastrom`, a
joint astrometric fitter for multi-exposure, multi-CCD data. The model covers:

- **The star selector.** `StarSelector.select` is the quality gate for
  sources. It has the same body in all three task versions; only the
  magnitude limit differs:
  - the `maxMag` setting in `simAstrom3.py`;
  - the constant 22.5 in `simAstrom2.py` and `simAstrom.py`.

  The catalog-level schema lookups run before the first source and can
  raise. Each source then goes through these gates in order:
  - bad flags, including the flux field's own flag;
  - negative flux;
  - magnitude, magnitude error and signal-to-noise;
  - deblend parent;
  - footprint peaks;
  - the implied position covariance, evaluated in numpy arithmetic.

  NaN is modelled explicitly, and so is the infinity that comes from
  dividing by a zero trace. A `flux/fluxErr` with a zero error raises.
- **The collection loop.** Each data reference's sources are selected, and
  an empty selection is skipped:
  - `simAstrom2.py` and `simAstrom3.py` hand every non-empty selection to
    the associations with `AddImage`, together with a control object that
    carries the configured flux, centroid and shape field names;
  - `simAstrom.py` fills nine parallel lists that go, with the same control
    object, to the external `simAstrom` constructor.
- **The fit sequence.** It has three parts:
  - the warm-up, three `Minimize` stages each followed by `ComputeChi2`;
  - the outlier rejection. `simAstrom3.py` runs a loop of up to 20 5-sigma
    fits that stops on return code 0 or on an unknown code. `simAstrom2.py`
    runs a single 5-sigma fit;
  - the residual tuple.

  The fitter itself is external. It is a class that records every call and
  answers `Minimize` with codes given from outside.
- **Routing the refitted WCS.** This is `simAstrom3.py` only. Each CCD
  image is matched to the first data reference with its visit and ccd, and
  the WCS is `put` through that reference. A `put` that fails is logged,
  and the loop goes on.
- **`getTargetList`.** The data references are grouped by tract, one
  target per tract in ascending order. The model proves that the groups
  partition the references.
- **`ExposureCatalog`** (C++). Each calexp catalog is read into a list of
  `BaseStar`, parallel to its chip number. The lists are assembled into one
  list of `ExposureStar` in tangent-plane coordinates, each one pointing
  back at the star it was made from. A chip's own catalog can be looked
  up. Heap pointers become values here: the `original` pointer of an
  `ExposureStar` (the `ExposureStar(S, Chip)` constructor,
  `ExposureCatalog.h` line 32) is the position `(catalog, index)` of the
  star it copies.

The modules follow the program:

| Module | What it holds |
|---|---|
| `Floats` | IEEE values as read from a record |
| `Tables` | schemas, records and catalogs |
| `StarSelector` | the selector |
| `Pipeline` | the collection loop shared by the versions |
| `Engine` | the external fitter |
| `SimAstrom3`, `SimAstrom2`, `SimAstrom1` | the three task versions |
| `ExposureCatalogs` | the C++ class |

## Model

| member | source | states |
|---|---|---|
| StarSelector.Select | python/lsst/meas/simastrom/simAstrom3.py:327-380 | `select` returns exactly `Selection(cfg, cat, calib, photometry)`: the resolved keys, then the scan with the first raised error. |
| StarSelector.ResolveKeys | python/lsst/meas/simastrom/simAstrom3.py:333-341 | The catalog-level lookups succeed iff the flux, flux error, parent, every bad flag and the flux flag are in the schema. The flag keys are the bad flags with the flux flag appended. On failure the error names the first missing field in lookup order. |
| StarSelector.FlagRejects | python/lsst/meas/simastrom/simAstrom3.py:345-351 | The inner flag loop (with `rej` carried in from the previous source) sets `rej` iff some key's flag is set. Because the key list is never empty, the carried value never decides. |
| StarSelector.Examine | python/lsst/meas/simastrom/simAstrom3.py:343-378 | One pass of the loop body gives the verdict `Judge` states for that source. |
| StarSelector.SelectionIsFilter | python/lsst/meas/simastrom/simAstrom3.py:343-380 | A successful selection is an order-preserving sub-sequence of the catalog. A source that passes every gate is kept as many times as it occurs in the catalog. Any other source is not kept at all. Nothing is deduplicated. |
| StarSelector.SelectionIdempotent | python/lsst/meas/simastrom/simAstrom3.py:343-380 | Selecting the output again, with the same schema and calibration, returns it unchanged. |
| StarSelector.SelectionErrors | python/lsst/meas/simastrom/simAstrom3.py:333-360 | Select raises a missing-field error for the first missing catalog-level field, whatever the records. Otherwise it raises iff some source's examination raises, and it raises the first such error. |
| StarSelector.ShapeFieldsLookedUpPerSource | python/lsst/meas/simastrom/simAstrom3.py:367-371 | The centroid and shape fields are read per source by name. An empty catalog is therefore selected without error even when its schema lacks them. |
| StarSelector.AcceptIffAllGates | python/lsst/meas/simastrom/simAstrom3.py:343-378 | A source is accepted iff it passes all of these gates, with NaN comparisons false: no bad flag and no flux flag; flux not below 0; mag not above maxMag; magErr not above 0.1; a non-zero flux error; S/N not below 10; parent 0; at most one peak; and the covariance test passes. |
| StarSelector.FlagRejectsWhateverElse | python/lsst/meas/simastrom/simAstrom3.py:345-351 | A set bad flag or flux flag rejects the source, whatever its other values. |
| StarSelector.CovarianceGateFinite | python/lsst/meas/simastrom/simAstrom3.py:367-375 | For finite values and a non-zero trace, the gate rejects iff vxy^2 > vx*vy, where vx and vy are the squared centroid errors and vxy = mxy(vx+vy)/(mxx+myy). |
| StarSelector.NaNCentroidErrorRejected | python/lsst/meas/simastrom/simAstrom3.py:375 | A NaN centroid error always fails the covariance gate. |
| StarSelector.NaNMomentPasses | python/lsst/meas/simastrom/simAstrom3.py:369-375 | A NaN shape moment makes vxy NaN, and the source then passes the covariance gate. |
| StarSelector.ZeroTraceCovariance | python/lsst/meas/simastrom/simAstrom3.py:372-375 | With a zero trace, the test vxy^2 > vx*vy holds iff the numerator mxy(vx+vy) is non-zero. A 0/0 gives NaN, and NaN fails the test. |
| StarSelector.JudgeMagLimit | python/lsst/meas/simastrom/simAstrom3.py:358-360 | Raising maxMag changes a source's verdict only from a "too faint" rejection. |
| StarSelector.SelectionMagLimit | python/lsst/meas/simastrom/simAstrom3.py:358-360 | The selection under a lower limit is an ordered sub-sequence of the selection under any higher limit. It raises nothing that the looser selection does not raise. |
| StarSelector.SubsequenceMultiset | python/lsst/meas/simastrom/simAstrom3.py:378 | Only appending sources from the input never repeats one: the output is a sub-multiset and is no longer than the input. |
| Tables.FirstMissing | python/lsst/meas/simastrom/simAstrom3.py:333-340 | The result is None iff every lookup succeeds. Otherwise it is the name of a failing lookup that has only successful lookups before it. |
| Pipeline.CollectImages | python/lsst/meas/simastrom/simAstrom3.py:175-196 | The loop raises iff the `Picks` specification fails, and with its error. Otherwise the associations receive exactly one `AddImage` per kept reference, in order, each with the given control object. On a raise, the images of the references before the failing one stay added. |
| Pipeline.PicksSound | python/lsst/meas/simastrom/simAstrom3.py:175-196 | The kept references have strictly increasing indices. Each one has a non-empty selection, and that selection is what was kept. |
| Pipeline.PicksComplete | python/lsst/meas/simastrom/simAstrom3.py:188-196 | When the loop does not raise, every reference with a non-empty selection is kept. |
| Pipeline.PicksAllOk | python/lsst/meas/simastrom/simAstrom3.py:175-196 | When the loop does not raise, no reference's selection raised. |
| Pipeline.PicksErr | python/lsst/meas/simastrom/simAstrom3.py:175-196 | The loop raises iff some reference's selection raises. It raises the error of the first such reference. |
| Pipeline.PicksPrefixErr | python/lsst/meas/simastrom/simAstrom3.py:175-196 | A raise on a prefix of the references is the raise of the whole loop. |
| Engine.RunWarmUp | python/lsst/meas/simastrom/simAstrom3.py:239-248 | The fitter receives the three stages Distortions, Positions and "Distortions Positions", each followed by a chi2 computation, and answers three Minimize calls. |
| SimAstrom3.RejectOutliers | python/lsst/meas/simastrom/simAstrom3.py:250-263 | The loop ends as `RejectionEnd` says. It makes exactly `Iterations(end)` steps, and each step is a 5-sigma Minimize followed by ComputeChi2. |
| SimAstrom3.RejectionExit | python/lsst/meas/simastrom/simAstrom3.py:250-263 | The loop stops at the first code that is neither 1 nor 2. Code 0 is convergence. Any other code is a stop that carries that code. All 20 iterations run iff every code was 1 or 2. |
| SimAstrom3.StepsShape | python/lsst/meas/simastrom/simAstrom3.py:251-252 | In the call log of the loop, even positions are 5-sigma "Distortions Positions" fits and odd positions are chi2 computations. |
| SimAstrom3.FitTract | python/lsst/meas/simastrom/simAstrom3.py:239-263 | A new fitter sees the warm-up, then the rejection steps, and the loop starts after the three warm-up answers. |
| SimAstrom3.Run | python/lsst/meas/simastrom/simAstrom3.py:153-296 | A raising selection ends the run with its error. With no data reference, the tuple name has no reference to take its tract from. Otherwise the run makes one AddImage per kept reference, with the control object built from the configuration, then the warm-up, the rejection steps and `MakeResTuple("res_<tract of the last reference>.list")`, then the WCS writes of `Routing`. |
| SimAstrom3.RouteWcs | python/lsst/meas/simastrom/simAstrom3.py:280-296 | The nested loop produces exactly the writes `Routing` specifies. |
| SimAstrom3.FirstMatch | python/lsst/meas/simastrom/simAstrom3.py:287-288 | The result is the first reference whose visit and ccd are those of the image, and None iff no reference matches. |
| SimAstrom3.RoutingSound | python/lsst/meas/simastrom/simAstrom3.py:280-296 | Each image writes at most once, in image order, through its first matching reference. |
| SimAstrom3.RoutingComplete | python/lsst/meas/simastrom/simAstrom3.py:280-296 | Every image that has a matching reference writes, whatever happened to earlier puts. |
| SimAstrom3.RoutingIgnoresFailures | python/lsst/meas/simastrom/simAstrom3.py:292-295 | A failed put changes nothing about which image writes through which reference. |
| SimAstrom3.SelectorFor | python/lsst/meas/simastrom/simAstrom3.py:155-156 | The selector uses the default bad flags, the task's magnitude limit and the configured flux, centroid and shape fields. |
| SimAstrom3.ControlFor | python/lsst/meas/simastrom/simAstrom3.py:159-162 | The control object carries the configured flux, centroid and shape field names. |
| SimAstrom3.DefaultsAgreeWithSimAstrom2 | python/lsst/meas/simastrom/simAstrom3.py:99-123 | With the default configurations, this version's magnitude limit is simAstrom2.py's fixed 22.5. Both versions build the same selector and the same control object. |
| SimAstrom3.GroupByTract | python/lsst/meas/simastrom/simAstrom3.py:66-68 | The dictionary's keys are the tracts that occur. Each key maps to the references of that tract, in input order. |
| SimAstrom3.SortedKeys | python/lsst/meas/simastrom/simAstrom3.py:72 | `sorted` of the keys is strictly increasing and holds exactly the keys. |
| SimAstrom3.TargetList | python/lsst/meas/simastrom/simAstrom3.py:64-72 | There is one target per tract that occurs, in strictly ascending tract order. Each target holds that tract's references in input order. |
| SimAstrom3.TargetsPartition | python/lsst/meas/simastrom/simAstrom3.py:64-72 | The targets partition the references: no group is empty, a reference is in a group iff it has that group's tract, and the group sizes add up to the number of references. |
| SimAstrom3.TractRefsMembers | python/lsst/meas/simastrom/simAstrom3.py:66-68 | A reference is in the group of a tract iff it has that tract. A tract occurs iff its group is not empty. |
| SimAstrom3.LastRefHasTract | python/lsst/meas/simastrom/simAstrom3.py:274 | The last reference of a target has the target's tract, so the tuple of a run over one target is named after that tract. |
| SimAstrom2.SelectorFor | python/lsst/meas/simastrom/simAstrom2.py:113-114 | The selector uses the default bad flags, the configured flux, centroid and shape fields, and the fixed limit 22.5. |
| SimAstrom2.ControlFor | python/lsst/meas/simastrom/simAstrom2.py:117-120 | The control object carries the configured flux, centroid and shape field names. |
| SimAstrom2.Select | python/lsst/meas/simastrom/simAstrom2.py:236-294 | `select` is the configurable selector at maxMag 22.5, and it keeps an ordered sub-sequence of the sources. |
| SimAstrom2.FixedCutIsStricter | python/lsst/meas/simastrom/simAstrom2.py:270 | Against any looser limit, the 22.5 cut keeps an ordered sub-sequence and raises nothing that the looser selection does not raise. |
| SimAstrom2.Run | python/lsst/meas/simastrom/simAstrom2.py:111-207 | The run raises iff a selection raises. On a raise, the associations hold the images of the references before the raising one, each kept reference once, in order. Otherwise the associations receive one AddImage per kept reference, with the configured control object, and the fitter sees the warm-up, one 5-sigma fit and `MakeResTuple("res.list")`. |
| SimAstrom2.RunAddsNonEmptySelections | python/lsst/meas/simastrom/simAstrom2.py:124-143 | A successful run adds exactly the references whose selection is not empty, each once, at strictly increasing input positions. Each is added with its own selection, the metadata WCS and box, the data id's filter, visit and ccd, and the configured control object. |
| SimAstrom1.Run | python/lsst/meas/simastrom/simAstrom.py:95-146 | The run raises iff a selection raises. Otherwise the nine lists are parallel, one entry per kept reference. Entry j holds the selection, metadata, calexp WCS and box, calexp filter, calibration, visit, ccd and camera of that reference. The control object carries the configured field names. |
| SimAstrom1.DefaultsDifferInFluxField | python/lsst/meas/simastrom/simAstrom.py:52-66 | The default configuration differs from simAstrom2.py's only in the flux field. The two selectors are otherwise the same. |
| SimAstrom1.ArgsFromNonEmptySelections | python/lsst/meas/simastrom/simAstrom.py:118-144 | Every list entry comes from a reference whose selection is not empty, with that selection, in input order. |
| SimAstrom1.SameImagesAsAssociations | python/lsst/meas/simastrom/simAstrom.py:118-146 | With the same configuration, this version hands on the same images as `simAstrom2.py`, in the same order. The selections, metadata, calibrations, visits, ccds, cameras and control object are the same. The WCS, the box and the filter come from different places: this version reads all three from the calexp. `simAstrom2.py` builds the WCS and the box from the metadata and takes the filter from the data id. |
| ExposureCatalogs.ExposureCatalog.constructor | src/ExposureCatalog.cc:12-15 | A new catalog has no chips and no catalogs, and keeps the arrangement it is given. |
| ExposureCatalogs.ExposureCatalog.AddCalexp | src/ExposureCatalog.cc:19-43 | The five schema lookups, named after the given centroid and flux prefixes, run first. If one fails, its name is reported and nothing changes. Otherwise one star per record is appended as a new catalog, in record order, and the chip is appended: chips and catalogs stay parallel. |
| ExposureCatalogs.StarsOfRecords | src/ExposureCatalog.cc:31-40 | Each star copies x, y and flux. Its variances equal the squares of the x and y centroid errors, so they are never negative, and NaN exactly when the error is NaN. vxy keeps its default. |
| ExposureCatalogs.LookupsGiveFields | src/ExposureCatalog.cc:24-28 | When the five lookups succeed, every record carries the five fields. |
| ExposureCatalogs.ExposureCatalog.TangentPlaneCatalog | src/ExposureCatalog.cc:46-61 | The output list is cleared, then refilled with `TangentPlane`: every catalog's stars in chip order. |
| ExposureCatalogs.TangentPlaneSize | src/ExposureCatalog.cc:46-61 | The assembled list holds as many stars as all the catalogs together. |
| ExposureCatalogs.TangentPlaneAt | src/ExposureCatalog.cc:49-59 | Star j of catalog k sits at the total size of the catalogs before it, plus j. It is that star moved into the tangent plane by its chip's transformation, tagged with its chip and pointing back at its original. |
| ExposureCatalogs.TangentPlaneOriginals | include/lsst/meas/simastrom/ExposureCatalog.h:28-32 | Every assembled star points back at an existing star. Its chip is the chip of that star's catalog, and it is that star transformed, with the same flux. |
| ExposureCatalogs.ChipStars | include/lsst/meas/simastrom/ExposureCatalog.h:32 | Each catalog contributes one exposure star per star. |
| ExposureCatalogs.ExposureCatalog.ChipCatalog | src/ExposureCatalog.cc:63-71 | The result is None iff the chip was never added. Otherwise it is the catalog of the first position that holds the chip. |
| ExposureCatalogs.FirstIndex | src/ExposureCatalog.cc:65-70 | The result is None iff the chip is absent. Otherwise it is the first position that holds the chip. |
| ExposureCatalogs.FirstIndexAppend | src/ExposureCatalog.cc:42 | Appending a chip does not move the chips already present. A chip added twice is still found at its first catalog. |
| ExposureCatalogs.ExposureCatalog.Arrangement | include/lsst/meas/simastrom/ExposureCatalog.h:59-60 | The result is the arrangement given to the constructor. |
| ExposureCatalogs.ExposureCatalog.Chips | include/lsst/meas/simastrom/ExposureCatalog.h:62-63 | The chips are in the order of the AddCalexp calls that added them. |

## Left out

- Reading from and writing to the butler is not modelled (`dataRef.get`, `dataRef.put`). A data reference is a value that already holds its catalog, metadata, calexp, filter, calibration and camera. A `put` failure is a parameter, `putFails`.
- The external library is not part of this model: `Associations` beyond `AddImage`, `AssociateCatalogs`, the reference catalogs, `SimplePolyModel`, `ProduceSipWcs` and the `simAstrom` constructor. The CCD images the fit produces, and the fitter's return codes, are parameters. WCS and bounding boxes are handles that record where they were read from.
- The astrometry_net_data checks are not modelled. They raise `RuntimeError` before the fit when the package or its config file is missing.
- Floating-point rounding is not modelled. Values are reals or NaN, and the calibration's `getMagnitude` is an uninterpreted function.
- Infinite stored values are not modelled. A `Float` is a real or NaN, so a catalog cannot hold an infinite centroid error or moment. In numpy an infinite centroid error passes the covariance gate, because `inf > inf` is false. Infinity appears only as the result of a division by zero in that gate.
- Field lookups are typed here: a name found with another field type counts as missing. In the Python code `schema[name].asKey()` and `src.get(name)` accept a field of any type.
- Parsing of an image name "visit_ccd" is not modelled. An image carries its visit and ccd directly.
- `str(tract)` formatting is not modelled. The tuple name carries the tract number.
- The float/double distinction of schema fields is not modelled (`find<float>` for the sigmas in `src/ExposureCatalog.cc`). All of them are real fields.
- ExposureCatalogs.ExposureCatalog.AddCalexp: the centroid and flux field prefixes are placeholder string literals in the C++ body (`src/ExposureCatalog.cc` lines 22-23). Here they are an extra parameter, so the model does not commit to those literals.
- `BaseStar.h` and `StarList.h` are not part of this model. The covariance term of a default-constructed star is taken to be 0, and `ExposureStarList` is a list with clear and append.
- Pointers are not modelled. `ChipCatalog` returns the catalog's value rather than an alias, and `original` is an index pair. `Arrangement` is a total transformation per chip.
- Logging, `print` and timing are not modelled. The commented-out code is not modelled either.
- SimAstrom3.RejectOutliers: return code 2 ("minimization failed") goes on to the next iteration, as the code does, rather than ending the loop.
- SimAstrom3.Run: only the `lsst.pex.exceptions` raised by `put` are caught in the Python code. Any other exception from `put` is not modelled. The unused `tract` argument is kept as a parameter.
- SimAstrom3.Run: when a selection raises, the associations are not returned. In the Python code they are a local of `run`, and they are lost with the exception.
- StarSelector.Select: `calib.getMagnitude` raising is not modelled.
