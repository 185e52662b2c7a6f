/** Reshaping query rows into per-key, per-grid-square series
    (src/cryotrace/data_model/structure.py): a series per info key and grid
    square, one slot per exposure of the grid square, each slot None until a
    row for that exposure writes its value there. */
module Structure {
  import opened Common

  /** One row of the joined query: the info row's key and value and the names
      of the exposure and the grid square it belongs to (`sr[0].key`,
      `sr[0].value`, `sr[-2].exposure_name`, `sr[-1].grid_square_name`). */
  datatype Row = Row(key: string, value: real, exposureName: string, gridSquareName: string)

  /** The contents of one `np.full(l, None)` array. */
  type Series = seq<Option<real>>

  /** key -> grid square -> series. */
  type Grid = map<string, map<string, Series>>

  /** `{exp: i for i, exp in enumerate(exps)}`: each exposure's position; a
      repeated name keeps its last position. */
  function Positions(exps: seq<string>): (p: map<string, nat>)
    ensures forall e :: e in p <==> e in exps
    ensures forall e :: e in p ==> p[e] < |exps| && exps[p[e]] == e
    ensures forall e, j :: e in p && p[e] < j < |exps| ==> exps[j] != e
  {
    if |exps| == 0 then map[]
    else
      var front := exps[..|exps| - 1];
      assert forall j :: 0 <= j < |front| ==> front[j] == exps[j];
      Positions(front)[exps[|exps| - 1] := |exps| - 1]
  }

  /** The exposures listed for grid square `gs`, if it is listed. */
  function ExposuresOf(gridSquares: seq<(string, seq<string>)>, gs: string): Option<seq<string>>
  {
    Lookup(gridSquares, gs)
  }

  /** What `gs_indices[key]` holds after the set-up loop, whatever the grid
      square: the positions within the LAST grid square iterated. */
  function WrittenPositions(gridSquares: seq<(string, seq<string>)>): string -> map<string, nat>
  {
    (gs: string) => LastPositions(gridSquares)
  }

  /** The positions within the last listed grid square; none when none is listed. */
  function LastPositions(gridSquares: seq<(string, seq<string>)>): map<string, nat>
  {
    if |gridSquares| == 0 then map[] else Positions(gridSquares[|gridSquares| - 1].1)
  }

  /** The positions each grid square's own exposure list gives. */
  function OwnPositions(gridSquares: seq<(string, seq<string>)>): string -> map<string, nat>
  {
    (gs: string) =>
      match ExposuresOf(gridSquares, gs)
      case None => map[]
      case Some(exps) => Positions(exps)
  }

  /** `np.full(len(exps), None)` for every grid square, in dict order. */
  function EmptySeries(gridSquares: seq<(string, seq<string>)>): (m: map<string, Series>)
    ensures forall gs :: gs in m <==> ExposuresOf(gridSquares, gs).Some?
    ensures forall gs :: gs in m ==> m[gs] == seq(|ExposuresOf(gridSquares, gs).value|, _ => None)
    decreases |gridSquares|
  {
    if |gridSquares| == 0 then map[]
    else
      var rest := EmptySeries(gridSquares[1..]);
      rest[gridSquares[0].0 := seq(|gridSquares[0].1|, _ => None)]
  }

  /** The grid after the set-up loops: every requested key maps every listed
      grid square to an all-None series of its exposure count. */
  function InitialGrid(keys: seq<string>, gridSquares: seq<(string, seq<string>)>): Grid
  {
    map k | k in keys :: EmptySeries(gridSquares)
  }

  /** `structured_res[key][gs_name][positions[exp_name]] = value` for one row:
      KeyError for an unknown key, grid square or exposure, IndexError for a
      position past the end of the series. */
  function Write(g: Grid, r: Row, positions: string -> map<string, nat>): Result<Grid>
  {
    if r.key !in g || r.gridSquareName !in g[r.key] || r.exposureName !in positions(r.gridSquareName) then
      Err(KeyError)
    else
      var series := g[r.key][r.gridSquareName];
      var i := positions(r.gridSquareName)[r.exposureName];
      if i >= |series| then Err(IndexError)
      else Ok(g[r.key := g[r.key][r.gridSquareName := series[i := Some(r.value)]]])
  }

  /** The grid after the first n rows, or the exception the first failing row raises. */
  function WriteRows(g: Grid, rows: seq<Row>, positions: string -> map<string, nat>, n: nat): Result<Grid>
    requires n <= |rows|
  {
    if n == 0 then Ok(g)
    else
      match WriteRows(g, rows, positions, n - 1)
      case Err(e) => Err(e)
      case Ok(h) => Write(h, rows[n - 1], positions)
  }

  /** `grid_square_strucutre(rows, keys, grid_square_exposures)` as written. */
  function Structured(rows: seq<Row>, keys: seq<string>, gridSquares: seq<(string, seq<string>)>): Result<Grid>
  {
    WriteRows(InitialGrid(keys, gridSquares), rows, WrittenPositions(gridSquares), |rows|)
  }

  /** The same, with each row placed by its own grid square's exposure positions. */
  function CorrectedStructured(rows: seq<Row>, keys: seq<string>, gridSquares: seq<(string, seq<string>)>): Result<Grid>
  {
    WriteRows(InitialGrid(keys, gridSquares), rows, OwnPositions(gridSquares), |rows|)
  }

  // ---------------------------------------------------------------------
  // Shape.

  /** `g` has exactly the keys `keys`, each with exactly the listed grid
      squares, each series as long as its grid square's exposure list. */
  ghost predicate Shaped(g: Grid, keys: seq<string>, gridSquares: seq<(string, seq<string>)>)
  {
    && (forall k :: k in g <==> k in keys)
    && (forall k, gs :: k in g ==> (gs in g[k] <==> ExposuresOf(gridSquares, gs).Some?))
    && (forall k, gs :: k in g && gs in g[k] ==> |g[k][gs]| == |ExposuresOf(gridSquares, gs).value|)
  }

  lemma InitialShaped(keys: seq<string>, gridSquares: seq<(string, seq<string>)>)
    ensures Shaped(InitialGrid(keys, gridSquares), keys, gridSquares)
  {
  }

  /** Writing a row replaces one slot: keys, grid squares and series lengths
      stay as they were. */
  lemma WriteKeepsShape(g: Grid, r: Row, positions: string -> map<string, nat>,
                        keys: seq<string>, gridSquares: seq<(string, seq<string>)>)
    requires Shaped(g, keys, gridSquares)
    requires Write(g, r, positions).Ok?
    ensures Shaped(Write(g, r, positions).value, keys, gridSquares)
  {
  }

  lemma {:induction false} WriteRowsKeepShape(g: Grid, rows: seq<Row>, positions: string -> map<string, nat>,
                                              n: nat, keys: seq<string>, gridSquares: seq<(string, seq<string>)>)
    requires n <= |rows|
    requires Shaped(g, keys, gridSquares)
    requires WriteRows(g, rows, positions, n).Ok?
    ensures Shaped(WriteRows(g, rows, positions, n).value, keys, gridSquares)
  {
    if n > 0 {
      WriteRowsKeepShape(g, rows, positions, n - 1, keys, gridSquares);
      WriteKeepsShape(WriteRows(g, rows, positions, n - 1).value, rows[n - 1], positions, keys, gridSquares);
    }
  }

  /** The result has exactly the requested keys and, under each, exactly the
      listed grid squares, each series as long as that grid square's exposure
      list. */
  lemma StructuredShape(rows: seq<Row>, keys: seq<string>, gridSquares: seq<(string, seq<string>)>)
    requires Structured(rows, keys, gridSquares).Ok?
    ensures Shaped(Structured(rows, keys, gridSquares).value, keys, gridSquares)
  {
    InitialShaped(keys, gridSquares);
    WriteRowsKeepShape(InitialGrid(keys, gridSquares), rows, WrittenPositions(gridSquares), |rows|, keys, gridSquares);
  }

  // ---------------------------------------------------------------------
  // Which rows fail.

  /** The exception that row `r` raises on a grid of the given shape, if any. */
  function RowError(r: Row, keys: seq<string>, gridSquares: seq<(string, seq<string>)>,
                    positions: string -> map<string, nat>): Option<PyError>
  {
    if r.key !in keys || ExposuresOf(gridSquares, r.gridSquareName).None? || r.exposureName !in positions(r.gridSquareName) then
      Some(KeyError)
    else if positions(r.gridSquareName)[r.exposureName] >= |ExposuresOf(gridSquares, r.gridSquareName).value| then
      Some(IndexError)
    else None
  }

  lemma WriteFailsAsRowError(g: Grid, r: Row, positions: string -> map<string, nat>,
                             keys: seq<string>, gridSquares: seq<(string, seq<string>)>)
    requires Shaped(g, keys, gridSquares)
    ensures Write(g, r, positions).Err? <==> RowError(r, keys, gridSquares, positions).Some?
    ensures Write(g, r, positions).Err? ==> Write(g, r, positions).error == RowError(r, keys, gridSquares, positions).value
  {
  }

  /** The exception of the first failing row among the first n, if any. */
  function FirstRowError(rows: seq<Row>, keys: seq<string>, gridSquares: seq<(string, seq<string>)>,
                         positions: string -> map<string, nat>, n: nat): Option<PyError>
    requires n <= |rows|
  {
    if n == 0 then None
    else
      match FirstRowError(rows, keys, gridSquares, positions, n - 1)
      case Some(e) => Some(e)
      case None => RowError(rows[n - 1], keys, gridSquares, positions)
  }

  /** The first n rows go through exactly when none of them fails; otherwise
      the first failing row decides the exception. */
  lemma {:induction false} WriteRowsFailures(g: Grid, rows: seq<Row>, positions: string -> map<string, nat>,
                                            n: nat, keys: seq<string>, gridSquares: seq<(string, seq<string>)>)
    requires n <= |rows|
    requires Shaped(g, keys, gridSquares)
    ensures WriteRows(g, rows, positions, n).Ok? <==> FirstRowError(rows, keys, gridSquares, positions, n).None?
    ensures WriteRows(g, rows, positions, n).Err? ==>
      FirstRowError(rows, keys, gridSquares, positions, n) == Some(WriteRows(g, rows, positions, n).error)
  {
    if n > 0 {
      WriteRowsFailures(g, rows, positions, n - 1, keys, gridSquares);
      var prev := WriteRows(g, rows, positions, n - 1);
      if prev.Ok? {
        WriteRowsKeepShape(g, rows, positions, n - 1, keys, gridSquares);
        WriteFailsAsRowError(prev.value, rows[n - 1], positions, keys, gridSquares);
      }
    }
  }

  /** FirstRowError finds nothing exactly when no row fails, and otherwise
      names the exception of a failing row preceded only by rows that pass. */
  lemma {:induction false} FirstRowErrorMeaning(rows: seq<Row>, keys: seq<string>, gridSquares: seq<(string, seq<string>)>,
                                               positions: string -> map<string, nat>, n: nat)
    requires n <= |rows|
    ensures FirstRowError(rows, keys, gridSquares, positions, n).None? <==>
      forall j :: 0 <= j < n ==> RowError(rows[j], keys, gridSquares, positions).None?
    ensures FirstRowError(rows, keys, gridSquares, positions, n).Some? ==>
      exists j :: 0 <= j < n
        && RowError(rows[j], keys, gridSquares, positions) == FirstRowError(rows, keys, gridSquares, positions, n)
        && forall i :: 0 <= i < j ==> RowError(rows[i], keys, gridSquares, positions).None?
  {
    if n > 0 {
      FirstRowErrorMeaning(rows, keys, gridSquares, positions, n - 1);
      if FirstRowError(rows, keys, gridSquares, positions, n - 1).None? {
        assert RowError(rows[n - 1], keys, gridSquares, positions).Some? ==>
          RowError(rows[n - 1], keys, gridSquares, positions) == FirstRowError(rows, keys, gridSquares, positions, n);
      }
    }
  }

  /** As written, the rows go through exactly when each names a requested key,
      a listed grid square and an exposure of the LAST grid square whose
      position fits the row's own series; the first row that does not decides
      the exception. */
  lemma StructuredFailures(rows: seq<Row>, keys: seq<string>, gridSquares: seq<(string, seq<string>)>)
    ensures Structured(rows, keys, gridSquares).Ok? <==>
      forall j :: 0 <= j < |rows| ==> RowError(rows[j], keys, gridSquares, WrittenPositions(gridSquares)).None?
    ensures Structured(rows, keys, gridSquares).Err? ==>
      exists j :: 0 <= j < |rows|
        && RowError(rows[j], keys, gridSquares, WrittenPositions(gridSquares)) == Some(Structured(rows, keys, gridSquares).error)
        && forall i :: 0 <= i < j ==> RowError(rows[i], keys, gridSquares, WrittenPositions(gridSquares)).None?
  {
    InitialShaped(keys, gridSquares);
    WriteRowsFailures(InitialGrid(keys, gridSquares), rows, WrittenPositions(gridSquares), |rows|, keys, gridSquares);
    FirstRowErrorMeaning(rows, keys, gridSquares, WrittenPositions(gridSquares), |rows|);
  }

  // ---------------------------------------------------------------------
  // What each slot holds.

  /** The value of the last of the first n rows aimed at slot i of key k and
      grid square gs, or None when no row is. */
  function LastWrite(rows: seq<Row>, positions: string -> map<string, nat>, n: nat,
                     k: string, gs: string, i: nat): Option<real>
    requires n <= |rows|
  {
    if n == 0 then None
    else
      var r := rows[n - 1];
      if r.key == k && r.gridSquareName == gs && r.exposureName in positions(gs) && positions(gs)[r.exposureName] == i then
        Some(r.value)
      else LastWrite(rows, positions, n - 1, k, gs, i)
  }

  /** A slot of the initial grid keeps None unless a row writes it, and then
      holds the value of the last row that does: later rows overwrite earlier
      ones. */
  lemma {:induction false} WriteRowsSlots(rows: seq<Row>, positions: string -> map<string, nat>, n: nat,
                                         keys: seq<string>, gridSquares: seq<(string, seq<string>)>)
    requires n <= |rows|
    requires WriteRows(InitialGrid(keys, gridSquares), rows, positions, n).Ok?
    ensures var g := WriteRows(InitialGrid(keys, gridSquares), rows, positions, n).value;
      forall k, gs, i :: k in g && gs in g[k] && 0 <= i < |g[k][gs]| ==>
        g[k][gs][i] == LastWrite(rows, positions, n, k, gs, i)
  {
    if n > 0 {
      WriteRowsSlots(rows, positions, n - 1, keys, gridSquares);
    }
  }

  /** As written: every slot holds the last value written to it, or None. */
  lemma StructuredSlots(rows: seq<Row>, keys: seq<string>, gridSquares: seq<(string, seq<string>)>)
    requires Structured(rows, keys, gridSquares).Ok?
    ensures var g := Structured(rows, keys, gridSquares).value;
      forall k, gs, i :: k in g && gs in g[k] && 0 <= i < |g[k][gs]| ==>
        g[k][gs][i] == LastWrite(rows, WrittenPositions(gridSquares), |rows|, k, gs, i)
  {
    WriteRowsSlots(rows, WrittenPositions(gridSquares), |rows|, keys, gridSquares);
  }

  // ---------------------------------------------------------------------
  // The positions of the last grid square are used for every grid square.

  /** Grid square A lists exposures x and y, B (iterated last) lists only y. A
      row for x in A raises KeyError although A lists x. */
  lemma WrittenPositionsRejectListedExposure()
    ensures Structured([Row("k", 1.0, "x", "A")], ["k"], [("A", ["x", "y"]), ("B", ["y"])]) == Err(KeyError)
  {
    var gse := [("A", ["x", "y"]), ("B", ["y"])];
    var row := Row("k", 1.0, "x", "A");
    assert LastPositions(gse) == Positions(["y"]);
    assert "x" !in WrittenPositions(gse)("A");
    var g := InitialGrid(["k"], gse);
    assert WriteRows(g, [row], WrittenPositions(gse), 0) == Ok(g);
    assert Write(g, row, WrittenPositions(gse)) == Err(KeyError);
  }

  /** And a row for y in A lands in slot 0, y's position in B, not in slot 1. */
  lemma WrittenPositionsMisplaceValue()
    ensures Structured([Row("k", 1.0, "y", "A")], ["k"], [("A", ["x", "y"]), ("B", ["y"])]).Ok?
    ensures Structured([Row("k", 1.0, "y", "A")], ["k"], [("A", ["x", "y"]), ("B", ["y"])]).value["k"]["A"]
         == [Some(1.0), None]
  {
    var gse := [("A", ["x", "y"]), ("B", ["y"])];
    assert LastPositions(gse) == Positions(["y"]);
    assert WrittenPositions(gse)("A") == Positions(["y"]);
    assert Positions(["y"])["y"] == 0;
    assert ExposuresOf(gse, "A") == Some(["x", "y"]);
    assert InitialGrid(["k"], gse)["k"]["A"] == [None, None];
  }

  /** With its own grid square's positions, the rows go through exactly when
      each names a requested key, a listed grid square and an exposure that
      grid square lists; a failure is always KeyError, never IndexError. */
  lemma CorrectedStructuredFailures(rows: seq<Row>, keys: seq<string>, gridSquares: seq<(string, seq<string>)>)
    ensures CorrectedStructured(rows, keys, gridSquares).Ok? <==>
      forall j :: 0 <= j < |rows| ==>
        && rows[j].key in keys
        && ExposuresOf(gridSquares, rows[j].gridSquareName).Some?
        && rows[j].exposureName in ExposuresOf(gridSquares, rows[j].gridSquareName).value
    ensures CorrectedStructured(rows, keys, gridSquares).Err? ==> CorrectedStructured(rows, keys, gridSquares).error == KeyError
  {
    var positions := OwnPositions(gridSquares);
    InitialShaped(keys, gridSquares);
    WriteRowsFailures(InitialGrid(keys, gridSquares), rows, positions, |rows|, keys, gridSquares);
    FirstRowErrorMeaning(rows, keys, gridSquares, positions, |rows|);
  }

  /** The slot of exposure e in grid square gs: e's position in gs's own list. */
  function OwnSlot(gridSquares: seq<(string, seq<string>)>, gs: string, e: string): (i: nat)
    requires ExposuresOf(gridSquares, gs).Some? && e in ExposuresOf(gridSquares, gs).value
    ensures i < |ExposuresOf(gridSquares, gs).value| && ExposuresOf(gridSquares, gs).value[i] == e
  {
    Positions(ExposuresOf(gridSquares, gs).value)[e]
  }

  /** With its own grid square's positions, the slot of every listed exposure
      holds the last value a row wrote for that exposure, or None. */
  lemma CorrectedStructuredSlots(rows: seq<Row>, keys: seq<string>, gridSquares: seq<(string, seq<string>)>)
    requires CorrectedStructured(rows, keys, gridSquares).Ok?
    ensures var g := CorrectedStructured(rows, keys, gridSquares).value;
      forall k, gs, e :: k in keys && ExposuresOf(gridSquares, gs).Some? && e in ExposuresOf(gridSquares, gs).value ==>
        && k in g && gs in g[k] && OwnSlot(gridSquares, gs, e) < |g[k][gs]|
        && g[k][gs][OwnSlot(gridSquares, gs, e)] == LastWrite(rows, OwnPositions(gridSquares), |rows|, k, gs, OwnSlot(gridSquares, gs, e))
  {
    var positions := OwnPositions(gridSquares);
    InitialShaped(keys, gridSquares);
    WriteRowsKeepShape(InitialGrid(keys, gridSquares), rows, positions, |rows|, keys, gridSquares);
    WriteRowsSlots(rows, positions, |rows|, keys, gridSquares);
  }

  // ---------------------------------------------------------------------
  // grid_square_strucutre over arrays.

  type Arrays = map<string, map<string, array<Option<real>>>>

  /** The arrays of one key, read in the current heap. */
  function Contents(row: map<string, array<Option<real>>>): map<string, Series>
    reads set gs | gs in row :: row[gs]
  {
    map gs | gs in row :: row[gs][..]
  }

  /** Every array of `m`. */
  function Footprint(m: Arrays): set<array<Option<real>>>
  {
    set k, gs | k in m && gs in m[k] :: m[k][gs]
  }

  /** The footprint holds the arrays of every key. */
  lemma FootprintCovers(m: Arrays)
    ensures forall k :: k in m ==> ArraysOf(m[k]) <= Footprint(m)
  {
    forall k, a | k in m && a in ArraysOf(m[k]) ensures a in Footprint(m) {
      var gs :| gs in m[k] && a == m[k][gs];
    }
  }

  /** Every slot's array is in the footprint. */
  lemma FootprintHas(m: Arrays, k: string, gs: string)
    requires k in m && gs in m[k]
    ensures m[k][gs] in Footprint(m)
  {
  }

  /** Storing a key's arrays adds them to the footprint. */
  lemma FootprintStore(m: Arrays, k: string, row: map<string, array<Option<real>>>)
    ensures Footprint(m[k := row]) <= Footprint(m) + ArraysOf(row)
  {
    forall a | a in Footprint(m[k := row]) ensures a in Footprint(m) + ArraysOf(row) {
      var k2, g2 :| k2 in m[k := row] && g2 in m[k := row][k2] && a == m[k := row][k2][g2];
      if k2 != k {
        assert a in Footprint(m);
      }
    }
  }

  /** The series the arrays of `m` hold in the current heap. */
  function Snapshot(m: Arrays): Grid
    reads Footprint(m)
  {
    map k | k in m :: Contents(m[k])
  }

  /** The arrays of one key. */
  function ArraysOf(row: map<string, array<Option<real>>>): set<array<Option<real>>>
  {
    set gs | gs in row :: row[gs]
  }

  /** Distinct grid squares of one key hold distinct arrays. */
  predicate Injective(row: map<string, array<Option<real>>>)
  {
    forall g1, g2 :: g1 in row && g2 in row && g1 != g2 ==> row[g1] != row[g2]
  }

  /** No two slots of `m` share an array, so writing one slot leaves the others. */
  predicate Separate(m: Arrays)
  {
    && (forall k :: k in m ==> Injective(m[k]))
    && (forall k1, k2 :: k1 in m && k2 in m && k1 != k2 ==> ArraysOf(m[k1]) !! ArraysOf(m[k2]))
  }

  /** Storing, under key k, arrays that no key holds yet keeps the slots
      separate and adds just those arrays to the footprint. */
  lemma StoreRow(m: Arrays, k: string, row: map<string, array<Option<real>>>)
    requires Separate(m) && Injective(row)
    requires Footprint(m) !! ArraysOf(row)
    ensures Separate(m[k := row])
    ensures Footprint(m[k := row]) <= Footprint(m) + ArraysOf(row)
  {
    FootprintCovers(m);
    FootprintStore(m, k, row);
  }

  /** The arrays of `m` hold the series of `g`, slot by slot. */
  predicate Holds(m: Arrays, g: Grid)
    reads Footprint(m)
  {
    && m.Keys == g.Keys
    && (forall k :: k in m ==> m[k].Keys == g[k].Keys)
    && (forall k, gs :: k in m && gs in m[k] ==> m[k][gs][..] == g[k][gs])
  }

  /** Arrays whose snapshot is `g` hold `g`. */
  lemma SnapshotHolds(m: Arrays, g: Grid)
    requires Snapshot(m) == g
    ensures Holds(m, g)
  {
  }

  /** Arrays that hold `g` have `g` as their snapshot. */
  lemma HoldsSnapshot(m: Arrays, g: Grid)
    requires Holds(m, g)
    ensures Snapshot(m) == g
  {
    forall k | k in m ensures Contents(m[k]) == g[k] {
      ContentsAre(m[k], g[k]);
    }
  }

  /** Arrays whose keys hold the series of `g` have `g` as their snapshot. */
  lemma SnapshotIs(m: Arrays, g: Grid)
    requires m.Keys == g.Keys
    requires forall k :: k in m ==> Contents(m[k]) == g[k]
    ensures Snapshot(m) == g
  {
  }

  /** Arrays holding given series give exactly those series. */
  lemma ContentsAre(row: map<string, array<Option<real>>>, series: map<string, Series>)
    requires row.Keys == series.Keys
    requires forall gs :: gs in row ==> row[gs][..] == series[gs]
    ensures Contents(row) == series
  {
  }

  /** In separate slots, the array of (k, gs) is held by no other slot. */
  lemma SeparateAt(m: Arrays, k: string, gs: string)
    requires Separate(m) && k in m && gs in m[k]
    ensures forall k2, g2 :: k2 in m && g2 in m[k2] && (k2 != k || g2 != gs) ==> m[k2][g2] != m[k][gs]
  {
    assert m[k][gs] in ArraysOf(m[k]);
    forall k2, g2 | k2 in m && g2 in m[k2] && (k2 != k || g2 != gs) ensures m[k2][g2] != m[k][gs] {
      assert m[k2][g2] in ArraysOf(m[k2]);
    }
  }

  /** `structured_res[key][gs_name][i] = value`: one slot of one array changes,
      and, no other slot holding that array, no other series. */
  method SetSlot(m: Arrays, ghost g: Grid, k: string, gs: string, i: nat, v: real)
    requires k in m && gs in m[k] && i < m[k][gs].Length
    requires forall k2, g2 :: k2 in m && g2 in m[k2] && (k2 != k || g2 != gs) ==> m[k2][g2] != m[k][gs]
    requires Holds(m, g)
    modifies m[k][gs]
    ensures Holds(m, g[k := g[k][gs := g[k][gs][i := Some(v)]]])
  {
    m[k][gs][i] := Some(v);
  }

  /** The series map of the first n listed grid squares, in dict order. */
  function PrefixSeries(gridSquares: seq<(string, seq<string>)>, n: nat): map<string, Series>
    requires n <= |gridSquares|
  {
    if n == 0 then map[]
    else PrefixSeries(gridSquares, n - 1)[gridSquares[n - 1].0 := seq(|gridSquares[n - 1].1|, _ => None)]
  }

  /** The first n grid squares are stored, each with its all-None series. */
  lemma {:induction false} PrefixSeriesAgrees(gridSquares: seq<(string, seq<string>)>, n: nat)
    requires DistinctKeys(gridSquares) && n <= |gridSquares|
    ensures forall gs :: gs in PrefixSeries(gridSquares, n) <==> exists j :: 0 <= j < n && gridSquares[j].0 == gs
    ensures forall j :: 0 <= j < n ==> PrefixSeries(gridSquares, n)[gridSquares[j].0] == seq(|gridSquares[j].1|, _ => None)
  {
    if n > 0 {
      PrefixSeriesAgrees(gridSquares, n - 1);
    }
  }

  /** Stored front to back, the grid squares give EmptySeries. */
  lemma PrefixSeriesComplete(gridSquares: seq<(string, seq<string>)>)
    requires DistinctKeys(gridSquares)
    ensures PrefixSeries(gridSquares, |gridSquares|) == EmptySeries(gridSquares)
  {
    PrefixSeriesAgrees(gridSquares, |gridSquares|);
    forall gs | gs in EmptySeries(gridSquares)
      ensures gs in PrefixSeries(gridSquares, |gridSquares|)
      ensures PrefixSeries(gridSquares, |gridSquares|)[gs] == EmptySeries(gridSquares)[gs]
    {
      PrefixCoversListed(gridSquares, gs);
    }
    ListedCoverPrefix(gridSquares);
  }

  /** Every listed grid square is stored with its all-None series. */
  lemma PrefixCoversListed(gridSquares: seq<(string, seq<string>)>, gs: string)
    requires DistinctKeys(gridSquares) && gs in EmptySeries(gridSquares)
    ensures gs in PrefixSeries(gridSquares, |gridSquares|)
    ensures PrefixSeries(gridSquares, |gridSquares|)[gs] == EmptySeries(gridSquares)[gs]
  {
    var i :| 0 <= i < |gridSquares| && gridSquares[i] == (gs, ExposuresOf(gridSquares, gs).value);
    PrefixSeriesAgrees(gridSquares, |gridSquares|);
    assert gridSquares[i].0 == gs;
  }

  /** Only listed grid squares are stored. */
  lemma ListedCoverPrefix(gridSquares: seq<(string, seq<string>)>)
    requires forall gs :: gs in PrefixSeries(gridSquares, |gridSquares|) <==> exists j :: 0 <= j < |gridSquares| && gridSquares[j].0 == gs
    ensures forall gs :: gs in PrefixSeries(gridSquares, |gridSquares|) ==> gs in EmptySeries(gridSquares)
  {
    forall gs | gs in PrefixSeries(gridSquares, |gridSquares|) ensures gs in EmptySeries(gridSquares) {
      var j :| 0 <= j < |gridSquares| && gridSquares[j].0 == gs;
    }
  }

  /** One more row: WriteRows writes it on the grid of the rows before. */
  lemma WriteRowsNext(g: Grid, rows: seq<Row>, positions: string -> map<string, nat>, n: nat)
    requires n < |rows| && WriteRows(g, rows, positions, n).Ok?
    ensures WriteRows(g, rows, positions, n + 1) == Write(WriteRows(g, rows, positions, n).value, rows[n], positions)
  {
  }

  /** A row whose key, grid square or exposure is missing raises KeyError. */
  lemma WriteMissing(g: Grid, r: Row, positions: string -> map<string, nat>)
    requires r.key !in g || r.gridSquareName !in g[r.key] || r.exposureName !in positions(r.gridSquareName)
    ensures Write(g, r, positions) == Err(KeyError)
  {
  }

  /** A row whose key, grid square, exposure and position are all present is
      written into its slot. */
  lemma WriteAt(g: Grid, r: Row, positions: string -> map<string, nat>)
    requires r.key in g && r.gridSquareName in g[r.key] && r.exposureName in positions(r.gridSquareName)
    requires positions(r.gridSquareName)[r.exposureName] < |g[r.key][r.gridSquareName]|
    ensures Write(g, r, positions) ==
      Ok(g[r.key := g[r.key][r.gridSquareName := g[r.key][r.gridSquareName][positions(r.gridSquareName)[r.exposureName] := Some(r.value)]]])
  {
  }

  /** Once a prefix of the rows raises, so do all longer prefixes. */
  lemma {:induction false} WriteRowsRaiseOnward(g: Grid, rows: seq<Row>, positions: string -> map<string, nat>, k: nat, n: nat)
    requires k <= n <= |rows|
    requires WriteRows(g, rows, positions, k).Err?
    ensures WriteRows(g, rows, positions, n) == WriteRows(g, rows, positions, k)
    decreases n
  {
    if k < n {
      WriteRowsRaiseOnward(g, rows, positions, k, n - 1);
    }
  }

  /** `structured_res[k][gs] = np.full(l, None)` on one key's arrays: a new
      array of l Nones under gs, distinct from every other. */
  method AddSeries(row: map<string, array<Option<real>>>, gs: string, l: nat) returns (row': map<string, array<Option<real>>>)
    requires Injective(row)
    ensures gs in row' && row' == row[gs := row'[gs]]
    ensures fresh(row'[gs]) && row'[gs][..] == seq(l, _ => None)
    ensures Injective(row')
  {
    var a := new Option<real>[l](_ => None);
    assert a[..] == seq(l, _ => None);
    assert forall g :: g in row ==> row[g] in ArraysOf(row) && row[g] != a;
    row' := row[gs := a];
  }

  /** The inner set-up loop of `grid_square_strucutre` for one key: a new
      all-None array per grid square, sized by its exposure list, and the
      exposure positions `gs_indices[key]` is left holding, those of the last
      grid square. */
  method NewSeries(gridSquares: seq<(string, seq<string>)>) returns (row: map<string, array<Option<real>>>, last: map<string, nat>)
    requires DistinctKeys(gridSquares)
    ensures Contents(row) == EmptySeries(gridSquares)
    ensures last == LastPositions(gridSquares)
    ensures Injective(row)
    ensures fresh(ArraysOf(row))
  {
    row := map[];
    last := map[];
    for gi := 0 to |gridSquares|
      invariant row.Keys == PrefixSeries(gridSquares, gi).Keys
      invariant forall gs :: gs in row ==> row[gs][..] == PrefixSeries(gridSquares, gi)[gs]
      invariant gi == 0 ==> last == map[]
      invariant gi > 0 ==> last == Positions(gridSquares[gi - 1].1)
      invariant Injective(row)
      invariant forall g :: g in row ==> fresh(row[g])
    {
      row := AddSeries(row, gridSquares[gi].0, |gridSquares[gi].1|);
      last := Positions(gridSquares[gi].1);
    }
    PrefixSeriesComplete(gridSquares);
    ContentsAre(row, EmptySeries(gridSquares));
    forall a | a in ArraysOf(row) ensures fresh(a) {
      var g :| g in row && a == row[g];
    }
  }

  /** Every key of `m` holds EmptySeries. */
  predicate AllEmpty(m: Arrays, gridSquares: seq<(string, seq<string>)>)
    reads Footprint(m)
  {
    forall k :: k in m ==> Contents(m[k]) == EmptySeries(gridSquares)
  }

  /** Storing all-None arrays under one more key keeps every key empty. */
  lemma AllEmptyStore(m: Arrays, gridSquares: seq<(string, seq<string>)>, k: string, row: map<string, array<Option<real>>>)
    requires AllEmpty(m, gridSquares) && Contents(row) == EmptySeries(gridSquares)
    ensures AllEmpty(m[k := row], gridSquares)
  {
    forall k2 | k2 in m && k2 != k ensures Contents(m[k := row][k2]) == EmptySeries(gridSquares) {
      assert m[k := row][k2] == m[k2];
    }
  }

  /** The set-up loops of `grid_square_strucutre`: for every requested key, new
      series arrays for every grid square, and the positions of the last grid
      square as that key's `gs_indices` entry. */
  method NewGrid(keys: seq<string>, gridSquares: seq<(string, seq<string>)>) returns (structured: Arrays, indices: map<string, map<string, nat>>)
    requires DistinctKeys(gridSquares)
    ensures Snapshot(structured) == InitialGrid(keys, gridSquares)
    ensures indices == map k | k in keys :: LastPositions(gridSquares)
    ensures structured.Keys == indices.Keys
    ensures Separate(structured)
    ensures fresh(Footprint(structured))
  {
    structured, indices := NewKeys(keys, gridSquares);
    SnapshotIs(structured, InitialGrid(keys, gridSquares));
  }

  /** The key loop itself: every key of `keys` ends up with all-None series
      and the last grid square's positions. */
  method NewKeys(keys: seq<string>, gridSquares: seq<(string, seq<string>)>) returns (structured: Arrays, indices: map<string, map<string, nat>>)
    requires DistinctKeys(gridSquares)
    ensures forall k :: k in structured <==> k in keys
    ensures forall k :: k in indices <==> k in keys
    ensures AllEmpty(structured, gridSquares)
    ensures forall k :: k in indices ==> indices[k] == LastPositions(gridSquares)
    ensures Separate(structured)
    ensures fresh(Footprint(structured))
  {
    structured := map[];
    indices := map[];
    for ki := 0 to |keys|
      invariant structured.Keys == indices.Keys
      invariant forall k :: k in indices <==> k in keys[..ki]
      invariant AllEmpty(structured, gridSquares)
      invariant forall k :: k in indices ==> indices[k] == LastPositions(gridSquares)
      invariant Separate(structured)
      invariant fresh(Footprint(structured))
    {
      var row, last := NewSeries(gridSquares);
      assert Footprint(structured) !! ArraysOf(row);
      StoreRow(structured, keys[ki], row);
      AllEmptyStore(structured, gridSquares, keys[ki], row);
      structured := structured[keys[ki] := row];
      indices := indices[keys[ki] := last];
      assert keys[..ki + 1] == keys[..ki] + [keys[ki]];
    }
    assert keys[..|keys|] == keys;
  }

  /** The row loop of `grid_square_strucutre`: each row's value written in place
      into its key's and grid square's array at the position `gs_indices` gives
      its exposure. Starting from arrays that hold `start`, they end holding
      what WriteRows computes, or the exception it names is raised. The row
      loop looks `gs_indices` up by info key and WriteRows by grid square; the
      two agree because every key holds the same positions. */
  method WriteAll(structured: Arrays, indices: map<string, map<string, nat>>, rows: seq<Row>, ghost positions: string -> map<string, nat>, ghost start: Grid)
    returns (r: Status)
    requires Separate(structured)
    requires forall k :: k in structured ==> k in indices
    requires forall k, gs :: k in indices ==> indices[k] == positions(gs)
    requires Holds(structured, start)
    modifies set k, gs | k in structured && gs in structured[k] :: structured[k][gs]
    ensures r == Done <==> WriteRows(start, rows, positions, |rows|).Ok?
    ensures r == Done ==> Holds(structured, WriteRows(start, rows, positions, |rows|).value)
    ensures r.Raised? ==> WriteRows(start, rows, positions, |rows|) == Err(r.error)
  {
    ghost var g := start;
    ghost var failed := 0;
    r := Done;
    for i := 0 to |rows|
      invariant WriteRows(start, rows, positions, i) == Ok(g)
      invariant Holds(structured, g)
    {
      var row := rows[i];
      WriteRowsNext(start, rows, positions, i);
      if row.key !in structured || row.gridSquareName !in structured[row.key]
         || row.exposureName !in indices[row.key] {
        assert row.key in indices ==> indices[row.key] == positions(row.gridSquareName);
        WriteMissing(g, row, positions);
        r, failed := Raised(KeyError), i + 1;
        break;
      }
      var a := structured[row.key][row.gridSquareName];
      var index := indices[row.key][row.exposureName];
      assert |g[row.key][row.gridSquareName]| == a.Length;
      if index >= a.Length {
        r, failed := Raised(IndexError), i + 1;
        break;
      }
      WriteAt(g, row, positions);
      SeparateAt(structured, row.key, row.gridSquareName);
      SetSlot(structured, g, row.key, row.gridSquareName, index, row.value);
      g := g[row.key := g[row.key][row.gridSquareName := g[row.key][row.gridSquareName][index := Some(row.value)]]];
    }
    if r.Raised? {
      WriteRowsRaiseOnward(start, rows, positions, failed, |rows|);
      return;
    }
  }

  /** `grid_square_strucutre(rows, keys, grid_square_exposures)`: the arrays it
      returns are new and pairwise distinct and hold what Structured computes;
      the exception it raises, if any, is the one Structured names. */
  method GridSquareStructure(rows: seq<Row>, keys: seq<string>, gridSquares: seq<(string, seq<string>)>)
    returns (r: Result<Arrays>)
    requires DistinctKeys(gridSquares)
    ensures r.Err? <==> Structured(rows, keys, gridSquares).Err?
    ensures r.Err? ==> r.error == Structured(rows, keys, gridSquares).error
    ensures r.Ok? ==> Separate(r.value)
    ensures r.Ok? ==> fresh(Footprint(r.value))
    ensures r.Ok? ==> Snapshot(r.value) == Structured(rows, keys, gridSquares).value
  {
    var structured, indices := NewGrid(keys, gridSquares);
    ghost var start := InitialGrid(keys, gridSquares);
    ghost var positions := WrittenPositions(gridSquares);
    assert forall k, gs :: k in indices ==> indices[k] == positions(gs);
    SnapshotHolds(structured, start);
    forall k, gs | k in structured && gs in structured[k] ensures fresh(structured[k][gs]) {
      FootprintHas(structured, k, gs);
    }
    assert fresh(set k, gs | k in structured && gs in structured[k] :: structured[k][gs]);
    var status := WriteAll(structured, indices, rows, positions, start);
    assert Structured(rows, keys, gridSquares) == WriteRows(start, rows, positions, |rows|);
    if status.Raised? {
      return Err(status.error);
    }
    HoldsSnapshot(structured, WriteRows(start, rows, positions, |rows|).value);
    return Ok(structured);
  }
}
