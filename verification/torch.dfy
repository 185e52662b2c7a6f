/** The pure rules of src/smartem/data_model/torch.py: the training label of
    a sample, the length of a dataset, the index guard of `__getitem__` and
    the test that drops foil holes outside a sub-sample window. */
module Torch {
  import opened Common
  import opened StageModel

  // ---------------------------------------------------------------------
  // compute_label.

  /** `labels[i]` is a pair (label name, lower is better). Condition i holds
      when annotation i beats the threshold of its label: below it when
      lower is better, above it otherwise. Evaluating condition i raises
      IndexError when there is no label i and KeyError when its name has no
      threshold. */
  function Conditions(annotation: seq<real>, labels: seq<(string, bool)>, ths: map<string, real>, n: nat): Result<seq<bool>>
    requires n <= |annotation|
  {
    if n == 0 then Ok([])
    else
      match Conditions(annotation, labels, ths, n - 1)
      case Err(e) => Err(e)
      case Ok(conds) =>
        var i := n - 1;
        if i >= |labels| then Err(IndexError)
        else if labels[i].0 !in ths then Err(KeyError)
        else
          var t := ths[labels[i].0];
          Ok(conds + [if labels[i].1 then annotation[i] < t else annotation[i] > t])
  }

  /** `sum(conds)`. */
  function CountTrue(conds: seq<bool>): (c: nat)
    ensures c <= |conds|
    ensures c == 0 <==> forall i :: 0 <= i < |conds| ==> !conds[i]
  {
    if |conds| == 0 then 0
    else CountTrue(conds[..|conds| - 1]) + (if conds[|conds| - 1] then 1 else 0)
  }

  /** `compute_label(annotation, pixel_condition, labels, dataset)` with the
      dataset's 0.7-quantile thresholds given as `ths`: 0 when at most a
      quarter of the image is dark and three quarters of the labels are
      met, 1 when some are, 2 otherwise. The conditions are evaluated, and
      may raise, before the dark fraction is looked at. */
  function ComputeLabel(annotation: seq<real>, pixelCondition: real, labels: seq<(string, bool)>, ths: map<string, real>): (r: Result<int>)
    ensures r.Ok? ==> 0 <= r.value <= 2
    ensures r.Err? <==> Conditions(annotation, labels, ths, |annotation|).Err?
  {
    match Conditions(annotation, labels, ths, |annotation|)
    case Err(e) => Err(e)
    case Ok(conds) =>
      if pixelCondition < 0.25 then
        if CountTrue(conds) as real >= 0.75 * |labels| as real then Ok(0)
        else if CountTrue(conds) > 0 then Ok(1)
        else Ok(2)
      else Ok(2)
  }

  /** The conditions are one per annotation, each what its label demands. */
  lemma {:induction false} ConditionsMeaning(annotation: seq<real>, labels: seq<(string, bool)>, ths: map<string, real>, n: nat)
    requires n <= |annotation|
    requires Conditions(annotation, labels, ths, n).Ok?
    ensures var conds := Conditions(annotation, labels, ths, n).value;
      && |conds| == n && n <= |labels|
      && forall i :: 0 <= i < n ==>
           labels[i].0 in ths &&
           conds[i] == (if labels[i].1 then annotation[i] < ths[labels[i].0] else annotation[i] > ths[labels[i].0])
  {
    if n > 0 {
      ConditionsMeaning(annotation, labels, ths, n - 1);
    }
  }

  /** The conditions raise exactly when a label is missing or has no threshold. */
  lemma {:induction false} ConditionsFail(annotation: seq<real>, labels: seq<(string, bool)>, ths: map<string, real>, n: nat)
    requires n <= |annotation|
    ensures Conditions(annotation, labels, ths, n).Err? <==> !(n <= |labels| && forall i :: 0 <= i < n ==> labels[i].0 in ths)
    ensures Conditions(annotation, labels, ths, n).Err? ==> Conditions(annotation, labels, ths, n).error in {IndexError, KeyError}
  {
    if n > 0 {
      ConditionsFail(annotation, labels, ths, n - 1);
    }
  }

  /** A quarter or more of dark pixels gives 2 whatever the annotations. */
  lemma DarkImage(annotation: seq<real>, pixelCondition: real, labels: seq<(string, bool)>, ths: map<string, real>)
    requires pixelCondition >= 0.25
    requires Conditions(annotation, labels, ths, |annotation|).Ok?
    ensures ComputeLabel(annotation, pixelCondition, labels, ths) == Ok(2)
  {
  }

  /** Below a quarter of dark pixels: 0 when at least 0.75 * len(labels)
      conditions hold, else 1 when any holds, else 2. */
  lemma LightImage(annotation: seq<real>, pixelCondition: real, labels: seq<(string, bool)>, ths: map<string, real>)
    requires pixelCondition < 0.25
    requires Conditions(annotation, labels, ths, |annotation|).Ok?
    ensures var conds := Conditions(annotation, labels, ths, |annotation|).value;
      var met := CountTrue(conds) as real >= 0.75 * |labels| as real;
      var r := ComputeLabel(annotation, pixelCondition, labels, ths).value;
      && (r == 0 <==> met)
      && (r == 1 <==> !met && exists i :: 0 <= i < |conds| && conds[i])
      && (r == 2 <==> !met && forall i :: 0 <= i < |conds| ==> !conds[i])
  {
  }

  // ---------------------------------------------------------------------
  // The dataset.

  /** The settings of a SmartEMDataset that decide its length and windows. */
  datatype Dataset = Dataset(level: string, fullRes: bool, numSamples: int, subSampleSize: (int, int),
                             restrictedIndices: seq<int>)

  /** `SmartEMDataset.__init__`: a missing sub-sample size is 256 x 256, a
      missing restriction is none, and a level other than grid_square or
      foil_hole raises ValueError. */
  function NewDataset(level: string, fullRes: bool, numSamples: int, subSampleSize: Option<(int, int)>,
                      restrictedIndices: Option<seq<int>>): (r: Result<Dataset>)
    ensures r.Ok? <==> level == "grid_square" || level == "foil_hole"
    ensures r.Err? ==> r.error == ValueError
  {
    if level != "grid_square" && level != "foil_hole" then Err(ValueError)
    else
      Ok(Dataset(level, fullRes, numSamples, if subSampleSize.Some? then subSampleSize.value else (256, 256),
                 if restrictedIndices.Some? then restrictedIndices.value else []))
  }

  /** `__len__`, given the number of distinct values of the level's column:
      the restriction's size when there is one; else, for grid squares
      sampled `num_samples` times, that many samples per square; else one
      per distinct value. */
  function Len(d: Dataset, distinct: nat): int
  {
    if |d.restrictedIndices| > 0 then |d.restrictedIndices|
    else if d.level == "grid_square" && d.numSamples != 0 then distinct * d.numSamples
    else distinct
  }

  /** Python's `len(obj)`: ValueError when `__len__` is negative. */
  function PyLen(d: Dataset, distinct: nat): (r: Result<nat>)
    ensures r.Ok? ==> r.value == Len(d, distinct)
    ensures r.Err? <==> Len(d, distinct) < 0
  {
    if Len(d, distinct) < 0 then Err(ValueError) else Ok(Len(d, distinct))
  }

  /** `s[i]` with Python's negative indices counting from the end. */
  function PyIndex(s: seq<int>, i: int): (r: Result<int>)
    ensures r.Ok? <==> -|s| <= i < |s|
    ensures r.Ok? ==> r.value == s[if i < 0 then |s| + i else i]
    ensures r.Err? ==> r.error == IndexError
  {
    if 0 <= i < |s| then Ok(s[i])
    else if i < 0 && -i <= |s| then Ok(s[|s| + i])
    else Err(IndexError)
  }

  /** The index `__getitem__(idx)` goes on with: IndexError from
      `idx >= len(self)`, and a restricted dataset's index in its place. */
  function GetItemIndex(d: Dataset, distinct: nat, idx: int): Result<int>
  {
    match PyLen(d, distinct)
    case Err(e) => Err(e)
    case Ok(n) =>
      if idx >= n then Err(IndexError)
      else if |d.restrictedIndices| > 0 then PyIndex(d.restrictedIndices, idx)
      else Ok(idx)
  }

  /** Every index from 0 below the length is accepted, and a restricted
      dataset maps it to its restriction's entry; no index at or past the
      length is. */
  lemma GetItemGuard(d: Dataset, distinct: nat, idx: int)
    requires Len(d, distinct) >= 0
    ensures 0 <= idx < Len(d, distinct) ==>
      GetItemIndex(d, distinct, idx) == Ok(if |d.restrictedIndices| > 0 then d.restrictedIndices[idx] else idx)
    ensures idx >= Len(d, distinct) ==> GetItemIndex(d, distinct, idx) == Err(IndexError)
  {
  }

  /** The loader of the tests: ten grid squares sampled twice give 20. */
  lemma LenExample()
    ensures NewDataset("grid_square", true, 2, Some((1, 1)), None).Ok?
    ensures Len(NewDataset("grid_square", true, 2, Some((1, 1)), None).value, 10) == 20
  {
  }

  /** A restriction decides the length alone. */
  lemma RestrictedLen(d: Dataset, distinct: nat, distinct': nat)
    requires |d.restrictedIndices| > 0
    ensures Len(d, distinct) == Len(d, distinct') == |d.restrictedIndices|
  {
  }

  // ---------------------------------------------------------------------
  // The foil-hole window test of __getitem__.

  /** A StageCalibration: whether the image axes are swapped and flipped. */
  datatype Calibration = Calibration(inverted: bool, xFlip: bool, yFlip: bool)

  /** A row of the selected grid square's frame: its index label, the stage
      positions of the foil hole and of the grid square, and the grid
      square's pixel size. */
  datatype FoilHoleRow = FoilHoleRow(rowLabel: int, foilHole: (real, real), gridSquare: (real, real), pixelSize: real)

  /** `self._stage_calibration.get(collection)`. */
  function CalibrationOf(calibrations: map<string, Option<Calibration>>, collection: string): Option<Calibration>
  {
    if collection in calibrations then calibrations[collection] else None
  }

  /** The foil hole's centre pixel in the image the window is cut from:
      the full-resolution image, whose size is stored (rows, columns), or
      the JPEG, whose pixels are larger by full width / JPEG width. A flip
      negates that axis's factor; an inverted calibration swaps the axes. In
      the full-resolution branch the calibration is read with `[]`, which
      raises KeyError for a collection without one. */
  function RowCentre(row: FoilHoleRow, fullRes: bool, calibrations: map<string, Option<Calibration>>, collection: string,
                     fullSize: (int, int), jpegSize: (int, int)): Result<(int, int)>
  {
    var cal := CalibrationOf(calibrations, collection);
    var xfactor := if cal.Some? && cal.value.xFlip then -1 else 1;
    var yfactor := if cal.Some? && cal.value.yFlip then -1 else 1;
    if fullRes then
      match FindPointPixel(row.foilHole, row.gridSquare, row.pixelSize, (fullSize.1, fullSize.0), xfactor, yfactor)
      case Err(e) => Err(e)
      case Ok(c) =>
        if collection !in calibrations then Err(KeyError)
        else if cal.Some? && cal.value.inverted then Ok((c.1, c.0))
        else Ok(c)
    else if jpegSize.0 == 0 then Err(ZeroDivisionError)
    else
      match FindPointPixel(row.foilHole, row.gridSquare, row.pixelSize * (fullSize.1 as real / jpegSize.0 as real), jpegSize,
                           xfactor, yfactor)
      case Err(e) => Err(e)
      case Ok(c) => if cal.Some? && cal.value.inverted then Ok((c.1, c.0)) else Ok(c)
  }

  /** The drop test as written: left of, above, right of or below the
      window starting at `bounds`. */
  predicate Outside(c: (int, int), bounds: (int, int), size: (int, int))
  {
    c.0 < bounds.0 || c.1 < bounds.1 || c.0 > bounds.0 + size.0 || c.1 > bounds.1 + size.1
  }

  /** The closed window [bx, bx + w] x [by, by + h]. */
  predicate InWindow(c: (int, int), bounds: (int, int), size: (int, int))
  {
    bounds.0 <= c.0 <= bounds.0 + size.0 && bounds.1 <= c.1 <= bounds.1 + size.1
  }

  /** `drop_indices` after the first n rows. */
  function Dropped(rows: seq<FoilHoleRow>, fullRes: bool, calibrations: map<string, Option<Calibration>>, collection: string,
                   fullSize: (int, int), jpegSize: (int, int), bounds: (int, int), size: (int, int), n: nat): Result<seq<int>>
    requires n <= |rows|
  {
    if n == 0 then Ok([])
    else
      match Dropped(rows, fullRes, calibrations, collection, fullSize, jpegSize, bounds, size, n - 1)
      case Err(e) => Err(e)
      case Ok(drops) =>
        match RowCentre(rows[n - 1], fullRes, calibrations, collection, fullSize, jpegSize)
        case Err(e) => Err(e)
        case Ok(c) => Ok(drops + (if Outside(c, bounds, size) then [rows[n - 1].rowLabel] else []))
  }

  /** A foil hole is dropped exactly when its centre lies outside the closed
      window. */
  lemma {:induction false} DroppedMeaning(rows: seq<FoilHoleRow>, fullRes: bool, calibrations: map<string, Option<Calibration>>,
                                          collection: string, fullSize: (int, int), jpegSize: (int, int), bounds: (int, int),
                                          size: (int, int), n: nat, dropped: int)
    requires n <= |rows|
    requires Dropped(rows, fullRes, calibrations, collection, fullSize, jpegSize, bounds, size, n).Ok?
    ensures dropped in Dropped(rows, fullRes, calibrations, collection, fullSize, jpegSize, bounds, size, n).value <==>
      exists i :: 0 <= i < n && rows[i].rowLabel == dropped &&
        RowCentre(rows[i], fullRes, calibrations, collection, fullSize, jpegSize).Ok? &&
        !InWindow(RowCentre(rows[i], fullRes, calibrations, collection, fullSize, jpegSize).value, bounds, size)
  {
    if n > 0 {
      DroppedMeaning(rows, fullRes, calibrations, collection, fullSize, jpegSize, bounds, size, n - 1, dropped);
    }
  }

  /** Every row's centre is computed once the drops are: none of them raised. */
  lemma {:induction false} DroppedCentres(rows: seq<FoilHoleRow>, fullRes: bool, calibrations: map<string, Option<Calibration>>,
                                          collection: string, fullSize: (int, int), jpegSize: (int, int), bounds: (int, int),
                                          size: (int, int), n: nat)
    requires n <= |rows|
    requires Dropped(rows, fullRes, calibrations, collection, fullSize, jpegSize, bounds, size, n).Ok?
    ensures forall i :: 0 <= i < n ==> RowCentre(rows[i], fullRes, calibrations, collection, fullSize, jpegSize).Ok?
  {
    if n > 0 {
      DroppedCentres(rows, fullRes, calibrations, collection, fullSize, jpegSize, bounds, size, n - 1);
    }
  }

  /** The window test raises only a KeyError of a full-resolution dataset
      without a calibration entry, or a ZeroDivisionError from a zero pixel
      size or image width. */
  lemma {:induction false} DroppedFail(rows: seq<FoilHoleRow>, fullRes: bool, calibrations: map<string, Option<Calibration>>,
                                       collection: string, fullSize: (int, int), jpegSize: (int, int), bounds: (int, int),
                                       size: (int, int), n: nat)
    requires n <= |rows|
    requires Dropped(rows, fullRes, calibrations, collection, fullSize, jpegSize, bounds, size, n).Err?
    ensures var e := Dropped(rows, fullRes, calibrations, collection, fullSize, jpegSize, bounds, size, n).error;
      (e == KeyError && fullRes && collection !in calibrations) || e == ZeroDivisionError
  {
    if Dropped(rows, fullRes, calibrations, collection, fullSize, jpegSize, bounds, size, n - 1).Err? {
      DroppedFail(rows, fullRes, calibrations, collection, fullSize, jpegSize, bounds, size, n - 1);
    }
  }

  lemma {:induction false} DroppedRaiseOnward(rows: seq<FoilHoleRow>, fullRes: bool, calibrations: map<string, Option<Calibration>>,
                                              collection: string, fullSize: (int, int), jpegSize: (int, int), bounds: (int, int),
                                              size: (int, int), n: nat, m: nat)
    requires n <= m <= |rows|
    requires Dropped(rows, fullRes, calibrations, collection, fullSize, jpegSize, bounds, size, n).Err?
    ensures Dropped(rows, fullRes, calibrations, collection, fullSize, jpegSize, bounds, size, m) ==
            Dropped(rows, fullRes, calibrations, collection, fullSize, jpegSize, bounds, size, n)
    decreases m - n
  {
    if n < m {
      DroppedRaiseOnward(rows, fullRes, calibrations, collection, fullSize, jpegSize, bounds, size, n + 1, m);
    }
  }

  /** One more row: its label is appended when its centre is outside. */
  lemma DroppedNext(rows: seq<FoilHoleRow>, fullRes: bool, calibrations: map<string, Option<Calibration>>, collection: string,
                    fullSize: (int, int), jpegSize: (int, int), bounds: (int, int), size: (int, int), n: nat,
                    drops: seq<int>, c: (int, int))
    requires n < |rows|
    requires Dropped(rows, fullRes, calibrations, collection, fullSize, jpegSize, bounds, size, n) == Ok(drops)
    requires RowCentre(rows[n], fullRes, calibrations, collection, fullSize, jpegSize) == Ok(c)
    ensures Dropped(rows, fullRes, calibrations, collection, fullSize, jpegSize, bounds, size, n + 1) ==
            if Outside(c, bounds, size) then Ok(drops + [rows[n].rowLabel]) else Ok(drops)
  {
    assert drops + [] == drops;
  }

  /** The `for ri, row in selected_df.iterrows()` loop of `__getitem__` for a
      sampled grid square: the labels of the foil holes outside the window
      of `d.subSampleSize` pixels at `bounds`. */
  method DropIndices(d: Dataset, rows: seq<FoilHoleRow>, calibrations: map<string, Option<Calibration>>, collection: string,
                     fullSize: (int, int), jpegSize: (int, int), bounds: (int, int)) returns (r: Result<seq<int>>)
    ensures r == Dropped(rows, d.fullRes, calibrations, collection, fullSize, jpegSize, bounds, d.subSampleSize, |rows|)
  {
    var dropIndices := [];
    for ri := 0 to |rows|
      invariant Dropped(rows, d.fullRes, calibrations, collection, fullSize, jpegSize, bounds, d.subSampleSize, ri) == Ok(dropIndices)
    {
      var centre := RowCentre(rows[ri], d.fullRes, calibrations, collection, fullSize, jpegSize);
      if centre.Err? {
        DroppedRaiseOnward(rows, d.fullRes, calibrations, collection, fullSize, jpegSize, bounds, d.subSampleSize, ri + 1, |rows|);
        return Err(centre.error);
      }
      var c := centre.value;
      DroppedNext(rows, d.fullRes, calibrations, collection, fullSize, jpegSize, bounds, d.subSampleSize, ri, dropIndices, c);
      if Outside(c, bounds, d.subSampleSize) {
        dropIndices := dropIndices + [rows[ri].rowLabel];
      }
    }
    return Ok(dropIndices);
  }
}
