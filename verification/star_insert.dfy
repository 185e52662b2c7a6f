/** The loaders of src/cryotrace/parsing/star.py: `insert_exposure_data`,
    `insert_particle_data` and `insert_particle_set` turn decoded STAR
    columns into database rows and hand them to the Extractor in batches.
    Each loader is specified by a function giving the batches it stores and
    how it ends; an exception ends it with the batches stored so far. */
module StarInsert {
  import opened Common
  import opened Star
  import opened Extract

  /** `[k for k in data.keys() if k and k not in tags]`. */
  function ExtraKeys(data: Block, tags: seq<string>): (ks: seq<string>)
    ensures forall k :: k in ks <==> (exists j :: 0 <= j < |data| && data[j].0 == k) && k != "" && k !in tags
  {
    if |data| == 0 then []
    else
      var k := data[|data| - 1].0;
      var front := ExtraKeys(data[..|data| - 1], tags);
      assert forall j :: 0 <= j < |data| - 1 ==> data[..|data| - 1][j] == data[j];
      front + (if k != "" && k !in tags then [k] else [])
  }

  /** The columns whose names ExtraKeys keeps, in column order. */
  function ExtraColumns(data: Block, tags: seq<string>): (cols: seq<nat>)
    ensures forall m :: 0 <= m < |cols| ==> cols[m] < |data|
  {
    if |data| == 0 then []
    else
      var k := data[|data| - 1].0;
      ExtraColumns(data[..|data| - 1], tags) + (if k != "" && k !in tags then [|data| - 1] else [])
  }

  /** The extra keys keep the column order of the block: the m-th extra key
      names column `ExtraColumns(...)[m]`, these columns rise strictly, and
      every column with a non-empty name outside the tags is among them. */
  lemma {:induction false} ExtraKeysInOrder(data: Block, tags: seq<string>)
    ensures var cols := ExtraColumns(data, tags);
      && |cols| == |ExtraKeys(data, tags)|
      && (forall m :: 0 <= m < |cols| ==> ExtraKeys(data, tags)[m] == data[cols[m]].0)
      && (forall m, m' :: 0 <= m < m' < |cols| ==> cols[m] < cols[m'])
      && (forall j :: 0 <= j < |data| && data[j].0 != "" && data[j].0 !in tags ==> j in cols)
  {
    ExtraKeysNameColumns(data, tags);
    ExtraColumnsRise(data, tags);
  }

  lemma {:induction false} ExtraKeysNameColumns(data: Block, tags: seq<string>)
    ensures |ExtraColumns(data, tags)| == |ExtraKeys(data, tags)|
    ensures forall m :: 0 <= m < |ExtraColumns(data, tags)| ==> ExtraKeys(data, tags)[m] == data[ExtraColumns(data, tags)[m]].0
  {
    if |data| > 0 {
      var n := |data|;
      var front := data[..n - 1];
      ExtraKeysNameColumns(front, tags);
      var k := data[n - 1].0;
      var cols := ExtraColumns(data, tags);
      var frontCols := ExtraColumns(front, tags);
      assert ExtraKeys(data, tags) == ExtraKeys(front, tags) + (if k != "" && k !in tags then [k] else []);
      assert cols == frontCols + (if k != "" && k !in tags then [n - 1] else []);
      forall m | 0 <= m < |cols|
        ensures ExtraKeys(data, tags)[m] == data[cols[m]].0
      {
        if m < |frontCols| {
          assert front[frontCols[m]] == data[frontCols[m]];
        }
      }
    }
  }

  lemma {:induction false} ExtraColumnsRise(data: Block, tags: seq<string>)
    ensures forall m, m' :: 0 <= m < m' < |ExtraColumns(data, tags)| ==> ExtraColumns(data, tags)[m] < ExtraColumns(data, tags)[m']
    ensures forall j :: 0 <= j < |data| && data[j].0 != "" && data[j].0 !in tags ==> j in ExtraColumns(data, tags)
  {
    if |data| > 0 {
      var n := |data|;
      var front := data[..n - 1];
      ExtraColumnsRise(front, tags);
      assert forall j :: 0 <= j < |front| ==> front[j] == data[j];
    }
  }

  /** `{(p.x, p.y): p.particle_id for p in particles}`: a later particle at
      the same coordinates replaces an earlier one. */
  function CoordIds(particles: seq<ParticleRow>): map<(Cell, Cell), int>
  {
    if |particles| == 0 then map[]
    else
      var p := particles[|particles| - 1];
      CoordIds(particles[..|particles| - 1])[(Number(p.x), Number(p.y)) := p.particleId]
  }

  /** The coordinates of a stored particle, as a STAR coordinate pair. */
  function CoordOf(p: ParticleRow): (Cell, Cell)
  {
    (Number(p.x), Number(p.y))
  }

  /** The coordinate map holds the coordinates of the particles, each
      mapped to the id of the last particle there. */
  lemma {:induction false} CoordIdsMeaning(particles: seq<ParticleRow>, c: (Cell, Cell))
    ensures c in CoordIds(particles) <==> exists j :: 0 <= j < |particles| && CoordOf(particles[j]) == c
    ensures c in CoordIds(particles) ==>
      exists j :: 0 <= j < |particles| && CoordOf(particles[j]) == c && CoordIds(particles)[c] == particles[j].particleId &&
        (forall i :: j < i < |particles| ==> CoordOf(particles[i]) != c)
  {
    if |particles| > 0 {
      var n := |particles|;
      var front := particles[..n - 1];
      CoordIdsMeaning(front, c);
      assert forall j :: 0 <= j < n - 1 ==> front[j] == particles[j];
      if CoordOf(particles[n - 1]) != c && c in CoordIds(front) {
        var j :| 0 <= j < |front| && CoordOf(front[j]) == c && CoordIds(front)[c] == front[j].particleId &&
          (forall i :: j < i < |front| ==> CoordOf(front[i]) != c);
        assert forall i :: j < i < n ==> CoordOf(particles[i]) != c;
      }
    }
  }

  // ---------------------------------------------------------------------
  // insert_exposure_data.

  /** Cell i of column `key`: an ExposureInfo for the exposure of row i
      (KeyError without the exposure column, IndexError past its end),
      skipped when validating and the exposure is unknown. */
  function ExposureEntry(acc: seq<Entry>, names: Option<seq<Cell>>, validate: bool, known: seq<string>, source: string,
                         stem: Cell -> string, key: string, value: Cell, i: nat): Result<seq<Entry>>
  {
    match names
    case None => Err(KeyError)
    case Some(column) =>
      if i >= |column| then Err(IndexError)
      else
        var name := ExposureName(stem, column[i]);
        if validate && name !in known then Ok(acc)
        else Ok(acc + [ExposureInfo(name, source, key, value)])
  }

  /** The entries after the first n cells of column `key`. */
  function ColumnEntries(acc: seq<Entry>, names: Option<seq<Cell>>, validate: bool, known: seq<string>, source: string,
                         stem: Cell -> string, key: string, values: seq<Cell>, n: nat): Result<seq<Entry>>
    requires n <= |values|
  {
    if n == 0 then Ok(acc)
    else
      match ColumnEntries(acc, names, validate, known, source, stem, key, values, n - 1)
      case Err(e) => Err(e)
      case Ok(entries) => ExposureEntry(entries, names, validate, known, source, stem, key, values[n - 1], n - 1)
  }

  /** The entries after the first m columns of the data; the exposure column
      itself contributes none. */
  function ExposureEntries(data: Block, exposureTag: string, validate: bool, known: seq<string>, source: string,
                           stem: Cell -> string, m: nat): Result<seq<Entry>>
    requires m <= |data|
  {
    if m == 0 then Ok([])
    else
      match ExposureEntries(data, exposureTag, validate, known, source, stem, m - 1)
      case Err(e) => Err(e)
      case Ok(entries) =>
        var (key, values) := data[m - 1];
        if key == exposureTag then Ok(entries)
        else ColumnEntries(entries, Lookup(data, exposureTag), validate, known, source, stem, key, values, |values|)
  }

  /** An error ends the column: it is the outcome for every longer prefix. */
  lemma {:induction false} ColumnEntriesRaiseOnward(acc: seq<Entry>, names: Option<seq<Cell>>, validate: bool, known: seq<string>,
                                                    source: string, stem: Cell -> string, key: string, values: seq<Cell>, n: nat, m: nat)
    requires n <= m <= |values|
    requires ColumnEntries(acc, names, validate, known, source, stem, key, values, n).Err?
    ensures ColumnEntries(acc, names, validate, known, source, stem, key, values, m) == ColumnEntries(acc, names, validate, known, source, stem, key, values, n)
    decreases m - n
  {
    if n < m {
      ColumnEntriesRaiseOnward(acc, names, validate, known, source, stem, key, values, n + 1, m);
    }
  }

  /** An error ends the loader: it is the outcome for every longer prefix. */
  lemma {:induction false} ExposureEntriesRaiseOnward(data: Block, exposureTag: string, validate: bool, known: seq<string>, source: string,
                                                      stem: Cell -> string, n: nat, m: nat)
    requires n <= m <= |data|
    requires ExposureEntries(data, exposureTag, validate, known, source, stem, n).Err?
    ensures ExposureEntries(data, exposureTag, validate, known, source, stem, m) == ExposureEntries(data, exposureTag, validate, known, source, stem, n)
    decreases m - n
  {
    if n < m {
      ExposureEntriesRaiseOnward(data, exposureTag, validate, known, source, stem, n + 1, m);
    }
  }

  /** What a column's cells add: an entry per cell, keyed by the column, for
      the exposure of the cell's row, unless validation rejects the exposure. */
  lemma {:induction false} ColumnEntriesMeaning(acc: seq<Entry>, column: seq<Cell>, validate: bool, known: seq<string>, source: string,
                                                stem: Cell -> string, key: string, values: seq<Cell>, n: nat)
    requires n <= |values|
    requires ColumnEntries(acc, Some(column), validate, known, source, stem, key, values, n).Ok?
    ensures forall en :: en in ColumnEntries(acc, Some(column), validate, known, source, stem, key, values, n).value <==>
      en in acc || CellOfColumn(en, column, validate, known, source, stem, key, values, n)
  {
    if n > 0 {
      ColumnEntriesMeaning(acc, column, validate, known, source, stem, key, values, n - 1);
    }
  }

  /** A column fails exactly when it has a cell and the exposure column is
      missing (KeyError) or shorter (IndexError). */
  lemma {:induction false} ColumnEntriesFail(acc: seq<Entry>, names: Option<seq<Cell>>, validate: bool, known: seq<string>, source: string,
                                             stem: Cell -> string, key: string, values: seq<Cell>, n: nat)
    requires n <= |values|
    ensures ColumnEntries(acc, names, validate, known, source, stem, key, values, n).Err? <==>
      n > 0 && (names.None? || n > |names.value|)
    ensures ColumnEntries(acc, names, validate, known, source, stem, key, values, n).Err? ==>
      ColumnEntries(acc, names, validate, known, source, stem, key, values, n).error == (if names.None? then KeyError else IndexError)
  {
    if n > 0 {
      ColumnEntriesFail(acc, names, validate, known, source, stem, key, values, n - 1);
    }
  }

  /** An ExposureInfo is among those `insert_exposure_data` stores exactly
      when it is built from a cell of a column other than the exposure
      column, for the exposure of the cell's row, and validation keeps that
      exposure. */
  lemma {:induction false} ExposureEntriesMeaning(data: Block, exposureTag: string, validate: bool, known: seq<string>, source: string,
                                                  stem: Cell -> string, m: nat, column: seq<Cell>)
    requires m <= |data|
    requires Lookup(data, exposureTag) == Some(column)
    requires ExposureEntries(data, exposureTag, validate, known, source, stem, m).Ok?
    ensures BatchOfCells(ExposureEntries(data, exposureTag, validate, known, source, stem, m).value,
                         data, exposureTag, validate, known, source, stem, m, column)
  {
    if m > 0 {
      if ExposureEntries(data, exposureTag, validate, known, source, stem, m - 1).Ok? {
        ExposureEntriesMeaning(data, exposureTag, validate, known, source, stem, m - 1, column);
      }
      ExposureColumnMeaning(data, exposureTag, validate, known, source, stem, m, column);
    }
  }

  /** `en` is the ExposureInfo of one of the first n cells of column `key`,
      in a row whose exposure validation keeps. */
  predicate CellOfColumn(en: Entry, column: seq<Cell>, validate: bool, known: seq<string>, source: string,
                         stem: Cell -> string, key: string, values: seq<Cell>, n: nat)
    requires n <= |values|
  {
    exists i :: 0 <= i < n && i < |column| && en == ExposureInfo(ExposureName(stem, column[i]), source, key, values[i]) &&
      (validate ==> ExposureName(stem, column[i]) in known)
  }

  /** `en` is the ExposureInfo of a cell of one of the first m columns other
      than the exposure column. */
  predicate BuiltFromCell(en: Entry, data: Block, exposureTag: string, validate: bool, known: seq<string>, source: string,
                          stem: Cell -> string, m: nat, column: seq<Cell>)
    requires m <= |data|
  {
    exists j :: 0 <= j < m && data[j].0 != exposureTag &&
      CellOfColumn(en, column, validate, known, source, stem, data[j].0, data[j].1, |data[j].1|)
  }

  /** Every member of `entries` is built from a cell of the first m columns,
      and every such info is a member. */
  ghost predicate BatchOfCells(entries: seq<Entry>, data: Block, exposureTag: string, validate: bool, known: seq<string>, source: string,
                         stem: Cell -> string, m: nat, column: seq<Cell>)
    requires m <= |data|
  {
    forall en :: en in entries <==> BuiltFromCell(en, data, exposureTag, validate, known, source, stem, m, column)
  }

  /** The cells of m columns are those of the first m - 1 and those of
      column m - 1 unless it is the exposure column. */
  lemma BuiltFromCellStep(en: Entry, data: Block, exposureTag: string, validate: bool, known: seq<string>, source: string,
                          stem: Cell -> string, m: nat, column: seq<Cell>)
    requires 0 < m <= |data|
    ensures BuiltFromCell(en, data, exposureTag, validate, known, source, stem, m, column) <==>
      BuiltFromCell(en, data, exposureTag, validate, known, source, stem, m - 1, column) ||
      (data[m - 1].0 != exposureTag &&
       CellOfColumn(en, column, validate, known, source, stem, data[m - 1].0, data[m - 1].1, |data[m - 1].1|))
  {
    if BuiltFromCell(en, data, exposureTag, validate, known, source, stem, m, column) {
      var j :| 0 <= j < m && data[j].0 != exposureTag &&
        CellOfColumn(en, column, validate, known, source, stem, data[j].0, data[j].1, |data[j].1|);
      if j < m - 1 {
        assert BuiltFromCell(en, data, exposureTag, validate, known, source, stem, m - 1, column);
      }
    }
  }

  /** Column m - 1 adds the cells it is built from to those of the columns
      before it. */
  lemma ExposureColumnMeaning(data: Block, exposureTag: string, validate: bool, known: seq<string>, source: string,
                              stem: Cell -> string, m: nat, column: seq<Cell>)
    requires 0 < m <= |data|
    requires Lookup(data, exposureTag) == Some(column)
    requires ExposureEntries(data, exposureTag, validate, known, source, stem, m).Ok?
    requires ExposureEntries(data, exposureTag, validate, known, source, stem, m - 1).Ok? ==>
      BatchOfCells(ExposureEntries(data, exposureTag, validate, known, source, stem, m - 1).value,
                   data, exposureTag, validate, known, source, stem, m - 1, column)
    ensures BatchOfCells(ExposureEntries(data, exposureTag, validate, known, source, stem, m).value,
                         data, exposureTag, validate, known, source, stem, m, column)
  {
    var entries := ExposureEntries(data, exposureTag, validate, known, source, stem, m - 1).value;
    assert ExposureEntries(data, exposureTag, validate, known, source, stem, m - 1) == Ok(entries);
    var result := ExposureEntries(data, exposureTag, validate, known, source, stem, m).value;
    var key := data[m - 1].0;
    var values := data[m - 1].1;
    if key != exposureTag {
      ColumnEntriesMeaning(entries, column, validate, known, source, stem, key, values, |values|);
    } else {
      assert result == entries;
    }
    forall en
      ensures en in result <==> BuiltFromCell(en, data, exposureTag, validate, known, source, stem, m, column)
    {
      BuiltFromCellStep(en, data, exposureTag, validate, known, source, stem, m, column);
    }
  }

  /** The rows among the first n of a column whose cell gets an entry: rows
      the exposure column reaches whose exposure validation keeps. */
  function KeptRows(column: seq<Cell>, validate: bool, known: seq<string>, stem: Cell -> string, n: nat): (rows: seq<nat>)
    ensures forall q :: 0 <= q < |rows| ==> rows[q] < n && rows[q] < |column|
  {
    if n == 0 then []
    else
      KeptRows(column, validate, known, stem, n - 1) +
        (if n - 1 < |column| && (validate ==> ExposureName(stem, column[n - 1]) in known) then [n - 1] else [])
  }

  /** KeptRows lists, in rising order, exactly the rows below n that the
      exposure column reaches and validation keeps. */
  lemma {:induction false} KeptRowsMeaning(column: seq<Cell>, validate: bool, known: seq<string>, stem: Cell -> string, n: nat)
    ensures forall q, q' :: 0 <= q < q' < |KeptRows(column, validate, known, stem, n)| ==>
      KeptRows(column, validate, known, stem, n)[q] < KeptRows(column, validate, known, stem, n)[q']
    ensures forall i :: 0 <= i < n ==>
      (i in KeptRows(column, validate, known, stem, n) <==> i < |column| && (validate ==> ExposureName(stem, column[i]) in known))
  {
    if n > 0 {
      KeptRowsMeaning(column, validate, known, stem, n - 1);
    }
  }

  /** The ExposureInfos of column `key`'s first n cells, in row order: one
      per kept row, for the exposure of that row, holding that row's cell. */
  function KeptEntries(column: seq<Cell>, validate: bool, known: seq<string>, source: string, stem: Cell -> string,
                       key: string, values: seq<Cell>, n: nat): seq<Entry>
    requires n <= |values|
  {
    var rows := KeptRows(column, validate, known, stem, n);
    seq(|rows|, q requires 0 <= q < |rows| => ExposureInfo(ExposureName(stem, column[rows[q]]), source, key, values[rows[q]]))
  }

  /** A column that raises nothing appends to acc exactly its kept entries,
      in row order. */
  lemma {:induction false} ColumnEntriesExact(acc: seq<Entry>, column: seq<Cell>, validate: bool, known: seq<string>, source: string,
                                              stem: Cell -> string, key: string, values: seq<Cell>, n: nat)
    requires n <= |values|
    requires ColumnEntries(acc, Some(column), validate, known, source, stem, key, values, n).Ok?
    ensures ColumnEntries(acc, Some(column), validate, known, source, stem, key, values, n).value ==
      acc + KeptEntries(column, validate, known, source, stem, key, values, n)
  {
    if n > 0 {
      ColumnEntriesExact(acc, column, validate, known, source, stem, key, values, n - 1);
      var front := KeptRows(column, validate, known, stem, n - 1);
      var rows := KeptRows(column, validate, known, stem, n);
      if n - 1 < |column| && (validate ==> ExposureName(stem, column[n - 1]) in known) {
        assert rows == front + [n - 1];
        assert KeptEntries(column, validate, known, source, stem, key, values, n) ==
          KeptEntries(column, validate, known, source, stem, key, values, n - 1) +
            [ExposureInfo(ExposureName(stem, column[n - 1]), source, key, values[n - 1])];
      } else {
        assert rows == front;
        assert KeptEntries(column, validate, known, source, stem, key, values, n) ==
          KeptEntries(column, validate, known, source, stem, key, values, n - 1);
      }
    }
  }

  /** The `put_info` batch of the first m columns: column after column, each
      but the exposure column contributing its kept entries in row order. */
  function ExposureBatch(data: Block, exposureTag: string, column: seq<Cell>, validate: bool, known: seq<string>, source: string,
                         stem: Cell -> string, m: nat): seq<Entry>
    requires m <= |data|
  {
    if m == 0 then []
    else
      var key := data[m - 1].0;
      var values := data[m - 1].1;
      ExposureBatch(data, exposureTag, column, validate, known, source, stem, m - 1) +
        (if key == exposureTag then [] else KeptEntries(column, validate, known, source, stem, key, values, |values|))
  }

  /** `insert_exposure_data`, when it raises nothing, stores exactly
      ExposureBatch: the columns in order, each with one ExposureInfo per
      kept row, in row order. */
  lemma {:induction false} ExposureEntriesExact(data: Block, exposureTag: string, validate: bool, known: seq<string>, source: string,
                                                stem: Cell -> string, m: nat, column: seq<Cell>)
    requires m <= |data|
    requires Lookup(data, exposureTag) == Some(column)
    requires ExposureEntries(data, exposureTag, validate, known, source, stem, m).Ok?
    ensures ExposureEntries(data, exposureTag, validate, known, source, stem, m).value ==
      ExposureBatch(data, exposureTag, column, validate, known, source, stem, m)
    decreases m, 1
  {
    if m > 0 {
      ExposureColumnExact(data, exposureTag, validate, known, source, stem, m, column);
    }
  }

  /** Column m - 1 extends the batch of the columns before it as
      ExposureBatch says. */
  lemma {:induction false} ExposureColumnExact(data: Block, exposureTag: string, validate: bool, known: seq<string>, source: string,
                            stem: Cell -> string, m: nat, column: seq<Cell>)
    requires 0 < m <= |data|
    requires Lookup(data, exposureTag) == Some(column)
    requires ExposureEntries(data, exposureTag, validate, known, source, stem, m).Ok?
    ensures ExposureEntries(data, exposureTag, validate, known, source, stem, m).value ==
      ExposureBatch(data, exposureTag, column, validate, known, source, stem, m)
    decreases m, 0
  {
    assert ExposureEntries(data, exposureTag, validate, known, source, stem, m - 1).Ok?;
    ExposureEntriesExact(data, exposureTag, validate, known, source, stem, m - 1, column);
    var batch := ExposureBatch(data, exposureTag, column, validate, known, source, stem, m - 1);
    assert ExposureEntries(data, exposureTag, validate, known, source, stem, m - 1) == Ok(batch);
    var key := data[m - 1].0;
    var values := data[m - 1].1;
    if key != exposureTag {
      ColumnEntriesExact(batch, column, validate, known, source, stem, key, values, |values|);
    }
  }

  /** `insert_exposure_data` fails exactly when a column other than the
      exposure column has a cell in a row the exposure column does not reach. */
  lemma {:induction false} ExposureEntriesFail(data: Block, exposureTag: string, validate: bool, known: seq<string>, source: string,
                                               stem: Cell -> string, m: nat)
    requires m <= |data|
    ensures ExposureEntries(data, exposureTag, validate, known, source, stem, m).Err? <==>
      exists j :: 0 <= j < m && data[j].0 != exposureTag && |data[j].1| > 0 &&
        (Lookup(data, exposureTag).None? || |data[j].1| > |Lookup(data, exposureTag).value|)
  {
    if m > 0 {
      ExposureEntriesFail(data, exposureTag, validate, known, source, stem, m - 1);
      if ExposureEntries(data, exposureTag, validate, known, source, stem, m - 1).Ok? {
        var entries := ExposureEntries(data, exposureTag, validate, known, source, stem, m - 1).value;
        var (key, values) := data[m - 1];
        if key != exposureTag {
          ColumnEntriesFail(entries, Lookup(data, exposureTag), validate, known, source, stem, key, values, |values|);
        }
      }
    }
  }

  /** What `insert_exposure_data` stores and how it ends: one `put_info`
      batch, or nothing when it raises. */
  function InsertExposureOutcome(data: Block, exposureTag: string, validate: bool, known: seq<string>, source: string,
                                 stem: Cell -> string): (seq<PutCall>, Status)
  {
    match ExposureEntries(data, exposureTag, validate, known, source, stem, |data|)
    case Err(e) => ([], Raised(e))
    case Ok(entries) => ([PutInfo(entries)], Done)
  }

  /** The inner loop of `insert_exposure_data` over one column's cells. */
  method AddColumn(entries: seq<Entry>, names: Option<seq<Cell>>, validate: bool, known: seq<string>, source: string,
                   stem: Cell -> string, key: string, values: seq<Cell>) returns (r: Result<seq<Entry>>)
    ensures r == ColumnEntries(entries, names, validate, known, source, stem, key, values, |values|)
  {
    var acc := entries;
    for i := 0 to |values|
      invariant ColumnEntries(entries, names, validate, known, source, stem, key, values, i) == Ok(acc)
    {
      if names.None? {
        ColumnEntriesRaiseOnward(entries, names, validate, known, source, stem, key, values, i + 1, |values|);
        return Err(KeyError);
      }
      if i >= |names.value| {
        ColumnEntriesRaiseOnward(entries, names, validate, known, source, stem, key, values, i + 1, |values|);
        return Err(IndexError);
      }
      var name := ExposureName(stem, names.value[i]);
      if !validate || name in known {
        acc := acc + [ExposureInfo(name, source, key, values[i])];
      }
    }
    return Ok(acc);
  }

  /** `insert_exposure_data(data, exposure_tag, star_file_path, extractor,
      validate)`. */
  method InsertExposureData(data: Block, exposureTag: string, starFilePath: string, extractor: Extractor, validate: bool,
                            stem: Cell -> string) returns (status: Status)
    modifies extractor
    ensures extractor.atlasId == old(extractor.atlasId)
    ensures var (calls, outcome) := InsertExposureOutcome(data, exposureTag, validate, old(extractor.AllExposures()), starFilePath, stem);
      extractor.puts == old(extractor.puts) + calls && status == outcome
  {
    var known := extractor.AllExposures();
    var names := Lookup(data, exposureTag);
    var entries: seq<Entry> := [];
    for m := 0 to |data|
      invariant ExposureEntries(data, exposureTag, validate, known, starFilePath, stem, m) == Ok(entries)
      invariant unchanged(extractor)
    {
      var (key, values) := data[m];
      if key != exposureTag {
        var r := AddColumn(entries, names, validate, known, starFilePath, stem, key, values);
        assert ExposureEntries(data, exposureTag, validate, known, starFilePath, stem, m + 1) == r;
        if r.Err? {
          ExposureEntriesRaiseOnward(data, exposureTag, validate, known, starFilePath, stem, m + 1, |data|);
          return Raised(r.error);
        }
        entries := r.value;
      }
    }
    extractor.Store(PutInfo(entries));
    return Done;
  }

  // ---------------------------------------------------------------------
  // insert_particle_data.

  /** The loop over the coordinates of the exposures' groups gathers the
      ParticleInfo rows of stored particles, the new particles, and the row
      index of each new particle (`new_particle_indices`). */
  datatype Scan = Scan(infos: seq<Entry>, queued: seq<Entry>, queuedRows: seq<nat>)

  /** acc followed by `ParticleInfo(ref, source, k, data[k][row])` for the
      first n keys. */
  function KeyValues(acc: seq<Entry>, data: Block, keys: seq<string>, ref: ParticleRef, source: string, row: nat, n: nat): Result<seq<Entry>>
    requires n <= |keys|
  {
    if n == 0 then Ok(acc)
    else
      match KeyValues(acc, data, keys, ref, source, row, n - 1)
      case Err(e) => Err(e)
      case Ok(entries) =>
        match CellAt(data, keys[n - 1], row)
        case Err(e) => Err(e)
        case Ok(v) => Ok(entries + [ParticleInfo(ref, source, keys[n - 1], v)])
  }

  /** One coordinate of an exposure's group, from row `row`: a stored
      particle there gets one ParticleInfo per extra key under its id;
      otherwise a new particle is queued with its row. */
  function ScanEntry(s: Scan, data: Block, extra: seq<string>, source: string, exposure: string,
                     coords: map<(Cell, Cell), int>, c: (Cell, Cell), row: nat): Result<Scan>
  {
    if c in coords then
      match KeyValues(s.infos, data, extra, Stored(coords[c]), source, row, |extra|)
      case Err(e) => Err(e)
      case Ok(infos) => Ok(s.(infos := infos))
    else Ok(s.(queued := s.queued + [NewParticle(c.0, c.1, exposure)], queuedRows := s.queuedRows + [row]))
  }

  /** The scan after the first n coordinates of a group. */
  function ScanGroup(s: Scan, data: Block, extra: seq<string>, source: string, exposure: string,
                     coords: map<(Cell, Cell), int>, g: Group, n: nat): Result<Scan>
    requires n <= |g.coordinates|
  {
    if n == 0 then Ok(s)
    else
      match ScanGroup(s, data, extra, source, exposure, coords, g, n - 1)
      case Err(e) => Err(e)
      case Ok(t) =>
        match At(g.indices, n - 1)
        case Err(e) => Err(e)
        case Ok(row) => ScanEntry(t, data, extra, source, exposure, coords, g.coordinates[n - 1], row)
  }

  /** The scan after the first m exposures: an exposure with a group is
      scanned against the coordinates of its stored particles. */
  function ScanExposures(s: Scan, data: Block, extra: seq<string>, source: string, exposures: seq<string>,
                         groups: Groups, particles: seq<ParticleRow>, m: nat): Result<Scan>
    requires m <= |exposures|
  {
    if m == 0 then Ok(s)
    else
      match ScanExposures(s, data, extra, source, exposures, groups, particles, m - 1)
      case Err(e) => Err(e)
      case Ok(t) =>
        var exposure := exposures[m - 1];
        if exposure in groups then
          ScanGroup(t, data, extra, source, exposure, CoordIds(ParticlesOf(particles, exposure)), groups[exposure], |groups[exposure].coordinates|)
        else Ok(t)
  }

  /** acc followed by `ParticleInfo(new particle j, source, k, data[k][rows[j]])`
      for the first n new particles. */
  function QueuedKey(acc: seq<Entry>, data: Block, key: string, source: string, rows: seq<nat>, n: nat): Result<seq<Entry>>
    requires n <= |rows|
  {
    if n == 0 then Ok(acc)
    else
      match QueuedKey(acc, data, key, source, rows, n - 1)
      case Err(e) => Err(e)
      case Ok(entries) =>
        match CellAt(data, key, rows[n - 1])
        case Err(e) => Err(e)
        case Ok(v) => Ok(entries + [ParticleInfo(Queued(n - 1), source, key, v)])
  }

  /** The infos of the new particles for the first m keys, key by key. */
  function QueuedInfos(acc: seq<Entry>, data: Block, keys: seq<string>, source: string, rows: seq<nat>, m: nat): Result<seq<Entry>>
    requires m <= |keys|
  {
    if m == 0 then Ok(acc)
    else
      match QueuedInfos(acc, data, keys, source, rows, m - 1)
      case Err(e) => Err(e)
      case Ok(entries) => QueuedKey(entries, data, keys[m - 1], source, rows, |rows|)
  }

  /** What `insert_particle_data` stores and how it ends: nothing when the
      grouping or the scan raises; else the new particles, then the infos
      when there are any (an error between the two leaves only the first). */
  function InsertParticleOutcome(data: Block, exposureTag: string, xTag: string, yTag: string, source: string,
                                 known: seq<string>, particles: seq<ParticleRow>, stem: Cell -> string): (seq<PutCall>, Status)
  {
    var extra := ExtraKeys(data, [exposureTag, xTag, yTag]);
    match StructureParticles(data, known, exposureTag, xTag, yTag, stem)
    case Err(e) => ([], Raised(e))
    case Ok(groups) =>
      match ScanExposures(Scan([], [], []), data, extra, source, known, groups, particles, |known|)
      case Err(e) => ([], Raised(e))
      case Ok(s) =>
        match QueuedInfos(s.infos, data, extra, source, s.queuedRows, |extra|)
        case Err(e) => ([PutParticles(s.queued)], Raised(e))
        case Ok(infos) => ([PutParticles(s.queued)] + (if |infos| > 0 then [PutInfo(infos)] else []), Done)
  }

  /** The new particles of a group's first n coordinates: one per coordinate
      no stored particle has, in group order. */
  function Unmatched(g: Group, coords: map<(Cell, Cell), int>, exposure: string, n: nat): seq<Entry>
    requires n <= |g.coordinates|
  {
    if n == 0 then []
    else
      var c := g.coordinates[n - 1];
      Unmatched(g, coords, exposure, n - 1) + (if c in coords then [] else [NewParticle(c.0, c.1, exposure)])
  }

  /** The rows of those coordinates. */
  function UnmatchedRows(g: Group, coords: map<(Cell, Cell), int>, n: nat): seq<nat>
    requires n <= |g.coordinates| && n <= |g.indices|
  {
    if n == 0 then []
    else UnmatchedRows(g, coords, n - 1) + (if g.coordinates[n - 1] in coords then [] else [g.indices[n - 1]])
  }

  /** A new particle is queued exactly for a coordinate of the group that no
      stored particle has. */
  lemma {:induction false} UnmatchedMeaning(g: Group, coords: map<(Cell, Cell), int>, exposure: string, n: nat)
    requires n <= |g.coordinates|
    ensures forall en :: en in Unmatched(g, coords, exposure, n) <==>
      exists i :: 0 <= i < n && g.coordinates[i] !in coords && en == NewParticle(g.coordinates[i].0, g.coordinates[i].1, exposure)
  {
    if n > 0 {
      UnmatchedMeaning(g, coords, exposure, n - 1);
    }
  }

  /** Each stored coordinate adds one info per key, in key order, all for
      the same reference, each holding that key's cell of the row. */
  lemma {:induction false} KeyValuesShape(acc: seq<Entry>, data: Block, keys: seq<string>, ref: ParticleRef, source: string, row: nat, n: nat)
    requires n <= |keys|
    requires KeyValues(acc, data, keys, ref, source, row, n).Ok?
    ensures var r := KeyValues(acc, data, keys, ref, source, row, n).value;
      && |r| == |acc| + n && r[..|acc|] == acc
      && forall j :: |acc| <= j < |r| ==>
           r[j].ParticleInfo? && r[j] == ParticleInfo(ref, source, keys[j - |acc|], r[j].value) &&
           CellAt(data, keys[j - |acc|], row) == Ok(r[j].value)
  {
    if n > 0 {
      KeyValuesShape(acc, data, keys, ref, source, row, n - 1);
    }
  }

  /** Scanning a group queues exactly its unmatched coordinates, in group
      order, with their rows, so the new particles and their rows stay
      parallel; a matched coordinate is not queued again. */
  lemma {:induction false} ScanGroupQueued(s: Scan, data: Block, extra: seq<string>, source: string, exposure: string,
                                           coords: map<(Cell, Cell), int>, g: Group, n: nat)
    requires n <= |g.coordinates| && n <= |g.indices|
    requires ScanGroup(s, data, extra, source, exposure, coords, g, n).Ok?
    ensures var t := ScanGroup(s, data, extra, source, exposure, coords, g, n).value;
      && t.queued == s.queued + Unmatched(g, coords, exposure, n)
      && t.queuedRows == s.queuedRows + UnmatchedRows(g, coords, n)
      && |Unmatched(g, coords, exposure, n)| == |UnmatchedRows(g, coords, n)| <= n
  {
    if n > 0 {
      ScanGroupQueued(s, data, extra, source, exposure, coords, g, n - 1);
    }
  }

  /** The number of a group's first n coordinates that a stored particle has. */
  function MatchedCount(g: Group, coords: map<(Cell, Cell), int>, n: nat): (count: nat)
    requires n <= |g.coordinates|
    ensures count <= n
  {
    if n == 0 then 0 else MatchedCount(g, coords, n - 1) + (if g.coordinates[n - 1] in coords then 1 else 0)
  }

  /** The positions among a group's first n coordinates that a stored
      particle has, in order. */
  function MatchedAt(g: Group, coords: map<(Cell, Cell), int>, n: nat): (at: seq<nat>)
    requires n <= |g.coordinates|
    ensures |at| == MatchedCount(g, coords, n)
    ensures forall q :: 0 <= q < |at| ==> at[q] < n
  {
    if n == 0 then [] else MatchedAt(g, coords, n - 1) + (if g.coordinates[n - 1] in coords then [n - 1] else [])
  }

  /** MatchedAt lists, in rising order, exactly the positions whose
      coordinate a stored particle has. */
  lemma {:induction false} MatchedAtMeaning(g: Group, coords: map<(Cell, Cell), int>, n: nat)
    requires n <= |g.coordinates|
    ensures forall q :: 0 <= q < |MatchedAt(g, coords, n)| ==> g.coordinates[MatchedAt(g, coords, n)[q]] in coords
    ensures forall q, q' :: 0 <= q < q' < |MatchedAt(g, coords, n)| ==> MatchedAt(g, coords, n)[q] < MatchedAt(g, coords, n)[q']
    ensures forall i :: 0 <= i < n && g.coordinates[i] in coords ==> i in MatchedAt(g, coords, n)
  {
    if n > 0 {
      MatchedAtMeaning(g, coords, n - 1);
    }
  }

  /** A group scan that raises nothing adds, for the q-th matched coordinate
      i and the k-th extra key, the info at place q * |extra| + k after the
      earlier infos: `ParticleInfo(Stored(coords[coordinate i]), source,
      extra[k], v)`, where v is key extra[k]'s cell of the group's row
      `indices[i]`. */
  lemma {:induction false} ScanGroupInfoAt(s: Scan, data: Block, extra: seq<string>, source: string, exposure: string,
                                           coords: map<(Cell, Cell), int>, g: Group, n: nat, q: nat, k: nat)
    requires n <= |g.coordinates|
    requires ScanGroup(s, data, extra, source, exposure, coords, g, n).Ok?
    requires q < |MatchedAt(g, coords, n)| && k < |extra|
    ensures var infos := ScanGroup(s, data, extra, source, exposure, coords, g, n).value.infos;
      var i := MatchedAt(g, coords, n)[q];
      var at := |s.infos| + q * |extra| + k;
      && i < |g.indices| && g.coordinates[i] in coords && at < |infos| && infos[at].ParticleInfo?
      && infos[at] == ParticleInfo(Stored(coords[g.coordinates[i]]), source, extra[k], infos[at].value)
      && CellAt(data, extra[k], g.indices[i]) == Ok(infos[at].value)
    decreases n, 1
  {
    if q < |MatchedAt(g, coords, n - 1)| {
      EarlierMatchInfo(s, data, extra, source, exposure, coords, g, n, q, k);
    } else {
      LastMatchInfo(s, data, extra, source, exposure, coords, g, n, q, k);
    }
  }

  /** The infos of a coordinate matched before the n-th stay in place. */
  lemma {:induction false} EarlierMatchInfo(s: Scan, data: Block, extra: seq<string>, source: string, exposure: string,
                                           coords: map<(Cell, Cell), int>, g: Group, n: nat, q: nat, k: nat)
    requires n <= |g.coordinates|
    requires ScanGroup(s, data, extra, source, exposure, coords, g, n).Ok?
    requires n > 0 && q < |MatchedAt(g, coords, n - 1)| && k < |extra|
    ensures var infos := ScanGroup(s, data, extra, source, exposure, coords, g, n).value.infos;
      var i := MatchedAt(g, coords, n)[q];
      var at := |s.infos| + q * |extra| + k;
      && i < |g.indices| && g.coordinates[i] in coords && at < |infos| && infos[at].ParticleInfo?
      && infos[at] == ParticleInfo(Stored(coords[g.coordinates[i]]), source, extra[k], infos[at].value)
      && CellAt(data, extra[k], g.indices[i]) == Ok(infos[at].value)
    decreases n, 0
  {
    var t := ScanGroup(s, data, extra, source, exposure, coords, g, n - 1).value;
    var u := ScanGroup(s, data, extra, source, exposure, coords, g, n).value;
    var c := g.coordinates[n - 1];
    var row := At(g.indices, n - 1).value;
    assert u == ScanEntry(t, data, extra, source, exposure, coords, c, row).value;
    ScanGroupInfoAt(s, data, extra, source, exposure, coords, g, n - 1, q, k);
    assert MatchedAt(g, coords, n)[q] == MatchedAt(g, coords, n - 1)[q];
    var at := |s.infos| + q * |extra| + k;
    assert at < |t.infos|;
    ScanEntryKeepsInfos(t, data, extra, source, exposure, coords, c, row);
    PrefixKept(t.infos, u.infos, at);
  }

  /** Scanning one coordinate keeps the infos gathered so far in place. */
  lemma ScanEntryKeepsInfos(t: Scan, data: Block, extra: seq<string>, source: string, exposure: string,
                            coords: map<(Cell, Cell), int>, c: (Cell, Cell), row: nat)
    requires ScanEntry(t, data, extra, source, exposure, coords, c, row).Ok?
    ensures var u := ScanEntry(t, data, extra, source, exposure, coords, c, row).value;
      |t.infos| <= |u.infos| && u.infos[..|t.infos|] == t.infos
  {
    if c in coords {
      KeyValuesShape(t.infos, data, extra, Stored(coords[c]), source, row, |extra|);
    }
  }

  /** The n-th coordinate, when matched, adds its infos at the end. */
  lemma {:induction false} LastMatchInfo(s: Scan, data: Block, extra: seq<string>, source: string, exposure: string,
                                           coords: map<(Cell, Cell), int>, g: Group, n: nat, q: nat, k: nat)
    requires n <= |g.coordinates|
    requires ScanGroup(s, data, extra, source, exposure, coords, g, n).Ok?
    requires n > 0 && |MatchedAt(g, coords, n - 1)| <= q < |MatchedAt(g, coords, n)| && k < |extra|
    ensures var infos := ScanGroup(s, data, extra, source, exposure, coords, g, n).value.infos;
      var i := MatchedAt(g, coords, n)[q];
      var at := |s.infos| + q * |extra| + k;
      && i < |g.indices| && g.coordinates[i] in coords && at < |infos| && infos[at].ParticleInfo?
      && infos[at] == ParticleInfo(Stored(coords[g.coordinates[i]]), source, extra[k], infos[at].value)
      && CellAt(data, extra[k], g.indices[i]) == Ok(infos[at].value)
  {
    var t := ScanGroup(s, data, extra, source, exposure, coords, g, n - 1).value;
    var u := ScanGroup(s, data, extra, source, exposure, coords, g, n).value;
    var c := g.coordinates[n - 1];
    var row := At(g.indices, n - 1).value;
    assert u == ScanEntry(t, data, extra, source, exposure, coords, c, row).value;
    assert c in coords && MatchedAt(g, coords, n)[q] == n - 1;
    ScanGroupInfoCount(s, data, extra, source, exposure, coords, g, n - 1);
    KeyValuesShape(t.infos, data, extra, Stored(coords[c]), source, row, |extra|);
    assert |s.infos| + q * |extra| + k == |t.infos| + k;
  }

  lemma PrefixKept(a: seq<Entry>, b: seq<Entry>, at: nat)
    requires |a| <= |b| && b[..|a|] == a && at < |a|
    ensures b[at] == a[at]
  {
    assert b[at] == b[..|a|][at];
  }

  /** Every coordinate is either matched or queued. */
  lemma {:induction false} MatchedOrQueued(g: Group, coords: map<(Cell, Cell), int>, exposure: string, n: nat)
    requires n <= |g.coordinates|
    ensures MatchedCount(g, coords, n) + |Unmatched(g, coords, exposure, n)| == n
  {
    if n > 0 {
      MatchedOrQueued(g, coords, exposure, n - 1);
    }
  }

  /** Scanning a group adds one info per extra key for each matched coordinate. */
  lemma {:induction false} ScanGroupInfoCount(s: Scan, data: Block, extra: seq<string>, source: string, exposure: string,
                                              coords: map<(Cell, Cell), int>, g: Group, n: nat)
    requires n <= |g.coordinates|
    requires ScanGroup(s, data, extra, source, exposure, coords, g, n).Ok?
    ensures |ScanGroup(s, data, extra, source, exposure, coords, g, n).value.infos| == |s.infos| + |extra| * MatchedCount(g, coords, n)
  {
    if n > 0 {
      ScanGroupInfoCount(s, data, extra, source, exposure, coords, g, n - 1);
      var t := ScanGroup(s, data, extra, source, exposure, coords, g, n - 1).value;
      var c := g.coordinates[n - 1];
      if c in coords {
        KeyValuesShape(t.infos, data, extra, Stored(coords[c]), source, g.indices[n - 1], |extra|);
        var m := MatchedCount(g, coords, n - 1);
        assert |extra| * (m + 1) == |extra| * m + |extra|;
      }
    }
  }

  /** Every info of `infos` from index `from` on is for a stored particle,
      under the id the coordinate map gives one of the first n coordinates of
      the group. */
  predicate StoredIds(infos: seq<Entry>, from: nat, coords: map<(Cell, Cell), int>, g: Group, n: nat)
    requires n <= |g.coordinates|
  {
    forall j :: from <= j < |infos| ==>
      infos[j].ParticleInfo? && infos[j].particle.Stored? &&
      exists i :: 0 <= i < n && g.coordinates[i] in coords && infos[j].particle.id == coords[g.coordinates[i]]
  }

  /** An id among the first n coordinates is one among the first n + 1. */
  lemma StoredIdsGrow(infos: seq<Entry>, from: nat, coords: map<(Cell, Cell), int>, g: Group, n: nat)
    requires n < |g.coordinates|
    requires StoredIds(infos, from, coords, g, n)
    ensures StoredIds(infos, from, coords, g, n + 1)
  {
    forall j | from <= j < |infos|
      ensures infos[j].ParticleInfo? && infos[j].particle.Stored?
      ensures exists i :: 0 <= i < n + 1 && g.coordinates[i] in coords && infos[j].particle.id == coords[g.coordinates[i]]
    {
      assert exists i :: 0 <= i < n && g.coordinates[i] in coords && infos[j].particle.id == coords[g.coordinates[i]];
      var i :| 0 <= i < n && g.coordinates[i] in coords && infos[j].particle.id == coords[g.coordinates[i]];
      assert 0 <= i < n + 1;
    }
  }

  /** Every info a group scan adds is for a stored particle, under the id the
      coordinate map gives one of the group's matched coordinates. */
  lemma {:induction false} ScanGroupStoredIds(s: Scan, data: Block, extra: seq<string>, source: string, exposure: string,
                                              coords: map<(Cell, Cell), int>, g: Group, n: nat)
    requires n <= |g.coordinates|
    requires ScanGroup(s, data, extra, source, exposure, coords, g, n).Ok?
    ensures var t := ScanGroup(s, data, extra, source, exposure, coords, g, n).value;
      && |s.infos| <= |t.infos| && t.infos[..|s.infos|] == s.infos
      && StoredIds(t.infos, |s.infos|, coords, g, n)
  {
    if n > 0 {
      ScanGroupStoredIds(s, data, extra, source, exposure, coords, g, n - 1);
      var t := ScanGroup(s, data, extra, source, exposure, coords, g, n - 1).value;
      StoredIdsGrow(t.infos, |s.infos|, coords, g, n - 1);
      var row := At(g.indices, n - 1).value;
      var c := g.coordinates[n - 1];
      var u := ScanGroup(s, data, extra, source, exposure, coords, g, n).value;
      assert u == ScanEntry(t, data, extra, source, exposure, coords, c, row).value;
      if c in coords {
        KeyValuesShape(t.infos, data, extra, Stored(coords[c]), source, row, |extra|);
        assert u.infos[..|t.infos|] == t.infos;
        assert u.infos[..|s.infos|] == t.infos[..|s.infos|];
        forall j | |s.infos| <= j < |u.infos|
          ensures u.infos[j].ParticleInfo? && u.infos[j].particle.Stored?
          ensures exists i :: 0 <= i < n && g.coordinates[i] in coords && u.infos[j].particle.id == coords[g.coordinates[i]]
        {
          if j < |t.infos| {
            assert u.infos[j] == t.infos[j];
          } else {
            assert u.infos[j].particle.id == coords[g.coordinates[n - 1]];
          }
        }
      } else {
        assert u.infos == t.infos;
      }
    }
  }

  /** The new particles and their rows stay parallel over all exposures. */
  lemma {:induction false} ScanExposuresParallel(s: Scan, data: Block, extra: seq<string>, source: string, exposures: seq<string>,
                                                 groups: Groups, particles: seq<ParticleRow>, m: nat)
    requires m <= |exposures|
    requires |s.queued| == |s.queuedRows|
    requires forall e :: e in groups ==> |groups[e].coordinates| == |groups[e].indices|
    requires ScanExposures(s, data, extra, source, exposures, groups, particles, m).Ok?
    ensures |ScanExposures(s, data, extra, source, exposures, groups, particles, m).value.queued| ==
            |ScanExposures(s, data, extra, source, exposures, groups, particles, m).value.queuedRows|
  {
    if m > 0 {
      ScanExposuresParallel(s, data, extra, source, exposures, groups, particles, m - 1);
      var t := ScanExposures(s, data, extra, source, exposures, groups, particles, m - 1).value;
      var e := exposures[m - 1];
      if e in groups {
        ScanGroupQueued(t, data, extra, source, e, CoordIds(ParticlesOf(particles, e)), groups[e], |groups[e].coordinates|);
      }
    }
  }

  /** The groups of a successful grouping have parallel coordinates and indices. */
  lemma StructureParallel(data: Block, exposures: seq<string>, exposureTag: string, xTag: string, yTag: string, stem: Cell -> string)
    requires StructureParticles(data, exposures, exposureTag, xTag, yTag, stem).Ok?
    ensures var groups := StructureParticles(data, exposures, exposureTag, xTag, yTag, stem).value;
      forall e :: e in groups ==> |groups[e].coordinates| == |groups[e].indices|
  {
    var names := Lookup(data, exposureTag).value;
    var groups := StructureParticles(data, exposures, exposureTag, xTag, yTag, stem).value;
    forall e | e in groups
      ensures |groups[e].coordinates| == |groups[e].indices|
    {
      GroupAligned(data, exposures, names, xTag, yTag, stem, |names|, e);
    }
  }

  /** The infos of the new particles: one per key and new particle, naming
      the particle by its place in the batch. */
  lemma {:induction false} QueuedKeyShape(acc: seq<Entry>, data: Block, key: string, source: string, rows: seq<nat>, n: nat)
    requires n <= |rows|
    requires QueuedKey(acc, data, key, source, rows, n).Ok?
    ensures var r := QueuedKey(acc, data, key, source, rows, n).value;
      && |r| == |acc| + n && r[..|acc|] == acc
      && forall j :: |acc| <= j < |r| ==>
           r[j].ParticleInfo? && r[j] == ParticleInfo(Queued(j - |acc|), source, key, r[j].value) &&
           CellAt(data, key, rows[j - |acc|]) == Ok(r[j].value)
  {
    if n > 0 {
      QueuedKeyShape(acc, data, key, source, rows, n - 1);
    }
  }

  /** The inner loop over the extra keys for a stored particle. */
  method AddKeyValues(acc: seq<Entry>, data: Block, keys: seq<string>, ref: ParticleRef, source: string, row: nat)
    returns (r: Result<seq<Entry>>)
    ensures r == KeyValues(acc, data, keys, ref, source, row, |keys|)
  {
    var entries := acc;
    for n := 0 to |keys|
      invariant KeyValues(acc, data, keys, ref, source, row, n) == Ok(entries)
    {
      var v := CellAt(data, keys[n], row);
      if v.Err? {
        KeyValuesRaiseOnward(acc, data, keys, ref, source, row, n + 1, |keys|);
        return Err(v.error);
      }
      entries := entries + [ParticleInfo(ref, source, keys[n], v.value)];
    }
    return Ok(entries);
  }

  lemma {:induction false} KeyValuesRaiseOnward(acc: seq<Entry>, data: Block, keys: seq<string>, ref: ParticleRef, source: string,
                                                row: nat, n: nat, m: nat)
    requires n <= m <= |keys|
    requires KeyValues(acc, data, keys, ref, source, row, n).Err?
    ensures KeyValues(acc, data, keys, ref, source, row, m) == KeyValues(acc, data, keys, ref, source, row, n)
    decreases m - n
  {
    if n < m {
      KeyValuesRaiseOnward(acc, data, keys, ref, source, row, n + 1, m);
    }
  }

  lemma {:induction false} ScanGroupRaiseOnward(s: Scan, data: Block, extra: seq<string>, source: string, exposure: string,
                                                coords: map<(Cell, Cell), int>, g: Group, n: nat, m: nat)
    requires n <= m <= |g.coordinates|
    requires ScanGroup(s, data, extra, source, exposure, coords, g, n).Err?
    ensures ScanGroup(s, data, extra, source, exposure, coords, g, m) == ScanGroup(s, data, extra, source, exposure, coords, g, n)
    decreases m - n
  {
    if n < m {
      ScanGroupRaiseOnward(s, data, extra, source, exposure, coords, g, n + 1, m);
    }
  }

  lemma {:induction false} ScanExposuresRaiseOnward(s: Scan, data: Block, extra: seq<string>, source: string, exposures: seq<string>,
                                                    groups: Groups, particles: seq<ParticleRow>, n: nat, m: nat)
    requires n <= m <= |exposures|
    requires ScanExposures(s, data, extra, source, exposures, groups, particles, n).Err?
    ensures ScanExposures(s, data, extra, source, exposures, groups, particles, m) == ScanExposures(s, data, extra, source, exposures, groups, particles, n)
    decreases m - n
  {
    if n < m {
      ScanExposuresRaiseOnward(s, data, extra, source, exposures, groups, particles, n + 1, m);
    }
  }

  lemma {:induction false} QueuedKeyRaiseOnward(acc: seq<Entry>, data: Block, key: string, source: string, rows: seq<nat>, n: nat, m: nat)
    requires n <= m <= |rows|
    requires QueuedKey(acc, data, key, source, rows, n).Err?
    ensures QueuedKey(acc, data, key, source, rows, m) == QueuedKey(acc, data, key, source, rows, n)
    decreases m - n
  {
    if n < m {
      QueuedKeyRaiseOnward(acc, data, key, source, rows, n + 1, m);
    }
  }

  lemma {:induction false} QueuedInfosRaiseOnward(acc: seq<Entry>, data: Block, keys: seq<string>, source: string, rows: seq<nat>, n: nat, m: nat)
    requires n <= m <= |keys|
    requires QueuedInfos(acc, data, keys, source, rows, n).Err?
    ensures QueuedInfos(acc, data, keys, source, rows, m) == QueuedInfos(acc, data, keys, source, rows, n)
    decreases m - n
  {
    if n < m {
      QueuedInfosRaiseOnward(acc, data, keys, source, rows, n + 1, m);
    }
  }

  /** The loop over one group's coordinates. */
  method ScanCoordinates(s: Scan, data: Block, extra: seq<string>, source: string, exposure: string,
                         coords: map<(Cell, Cell), int>, g: Group) returns (r: Result<Scan>)
    ensures r == ScanGroup(s, data, extra, source, exposure, coords, g, |g.coordinates|)
  {
    var t := s;
    for i := 0 to |g.coordinates|
      invariant ScanGroup(s, data, extra, source, exposure, coords, g, i) == Ok(t)
    {
      var particle := g.coordinates[i];
      if i >= |g.indices| {
        ScanGroupRaiseOnward(s, data, extra, source, exposure, coords, g, i + 1, |g.coordinates|);
        return Err(IndexError);
      }
      var row := g.indices[i];
      if particle in coords {
        var infos := AddKeyValues(t.infos, data, extra, Stored(coords[particle]), source, row);
        if infos.Err? {
          ScanGroupRaiseOnward(s, data, extra, source, exposure, coords, g, i + 1, |g.coordinates|);
          return Err(infos.error);
        }
        t := t.(infos := infos.value);
      } else {
        t := t.(queued := t.queued + [NewParticle(particle.0, particle.1, exposure)], queuedRows := t.queuedRows + [row]);
      }
    }
    return Ok(t);
  }

  /** The loop over the new particles for one extra key. */
  method AddQueued(acc: seq<Entry>, data: Block, key: string, source: string, rows: seq<nat>) returns (r: Result<seq<Entry>>)
    ensures r == QueuedKey(acc, data, key, source, rows, |rows|)
  {
    var entries := acc;
    for j := 0 to |rows|
      invariant QueuedKey(acc, data, key, source, rows, j) == Ok(entries)
    {
      var v := CellAt(data, key, rows[j]);
      if v.Err? {
        QueuedKeyRaiseOnward(acc, data, key, source, rows, j + 1, |rows|);
        return Err(v.error);
      }
      entries := entries + [ParticleInfo(Queued(j), source, key, v.value)];
    }
    return Ok(entries);
  }

  /** The loop over the exposures of `insert_particle_data`. */
  method ScanAll(data: Block, extra: seq<string>, source: string, exposures: seq<string>, groups: Groups,
                 particles: seq<ParticleRow>) returns (r: Result<Scan>)
    ensures r == ScanExposures(Scan([], [], []), data, extra, source, exposures, groups, particles, |exposures|)
  {
    var scan := Scan([], [], []);
    for m := 0 to |exposures|
      invariant ScanExposures(Scan([], [], []), data, extra, source, exposures, groups, particles, m) == Ok(scan)
    {
      var exposure := exposures[m];
      if exposure in groups {
        var existing := ParticlesOf(particles, exposure);
        var g := ScanCoordinates(scan, data, extra, source, exposure, CoordIds(existing), groups[exposure]);
        if g.Err? {
          ScanExposuresRaiseOnward(Scan([], [], []), data, extra, source, exposures, groups, particles, m + 1, |exposures|);
          return Err(g.error);
        }
        scan := g.value;
      }
    }
    return Ok(scan);
  }

  /** The loop over the extra keys that adds the infos of the new particles. */
  method AddAllQueued(acc: seq<Entry>, data: Block, keys: seq<string>, source: string, rows: seq<nat>) returns (r: Result<seq<Entry>>)
    ensures r == QueuedInfos(acc, data, keys, source, rows, |keys|)
  {
    var entries := acc;
    for m := 0 to |keys|
      invariant QueuedInfos(acc, data, keys, source, rows, m) == Ok(entries)
    {
      var q := AddQueued(entries, data, keys[m], source, rows);
      if q.Err? {
        QueuedInfosRaiseOnward(acc, data, keys, source, rows, m + 1, |keys|);
        return Err(q.error);
      }
      entries := q.value;
    }
    return Ok(entries);
  }

  /** `insert_particle_data(data, exposure_tag, x_tag, y_tag,
      star_file_path, extractor)`. */
  method InsertParticleData(data: Block, exposureTag: string, xTag: string, yTag: string, starFilePath: string,
                            extractor: Extractor, stem: Cell -> string) returns (status: Status)
    modifies extractor
    ensures extractor.atlasId == old(extractor.atlasId)
    ensures var (calls, outcome) := InsertParticleOutcome(data, exposureTag, xTag, yTag, starFilePath,
                                                          old(extractor.AllExposures()), extractor.particles, stem);
      extractor.puts == old(extractor.puts) + calls && status == outcome
  {
    var exposures := extractor.AllExposures();
    var extraKeys := ExtraKeys(data, [exposureTag, xTag, yTag]);
    var structured := StructureParticleData(data, exposures, exposureTag, xTag, yTag, stem);
    if structured.Err? {
      return Raised(structured.error);
    }
    var scanned := ScanAll(data, extraKeys, starFilePath, exposures, structured.value, extractor.particles);
    if scanned.Err? {
      return Raised(scanned.error);
    }
    var scan := scanned.value;
    extractor.Store(PutParticles(scan.queued));
    var particleInfo := AddAllQueued(scan.infos, data, extraKeys, starFilePath, scan.queuedRows);
    if particleInfo.Err? {
      return Raised(particleInfo.error);
    }
    if |particleInfo.value| > 0 {
      extractor.Store(PutInfo(particleInfo.value));
    }
    return Done;
  }
}
