/** The column handling of src/cryotrace/parsing/star.py, on a STAR file
    already decoded to its JSON form (block name -> column name -> cells):
    listing and selecting columns, and grouping the particle rows of a table
    by the exposure each row's micrograph belongs to. */
module Star {
  import opened Common

  /** One data block: column name -> the column's cells, in file order. */
  type Block = seq<(string, seq<Cell>)>

  /** A decoded STAR file: block name -> block, in file order. */
  type StarFile = seq<(string, Block)>

  // ---------------------------------------------------------------------
  // get_columns.

  /** Python's `sub in s` on strings (the empty string occurs in every string). */
  predicate Occurs(sub: string, s: string)
    decreases |s|
  {
    (|sub| <= |s| && s[..|sub|] == sub) || (|s| > 0 && Occurs(sub, s[1..]))
  }

  /** `all(ig not in name for ig in ignore)`. */
  predicate Kept(name: string, ignore: seq<string>)
  {
    forall ig :: ig in ignore ==> !Occurs(ig, name)
  }

  /** The column names of a block that contain none of the ignored strings,
      in block order. */
  function KeptNames(block: Block, ignore: seq<string>): seq<string>
  {
    if |block| == 0 then []
    else KeptNames(block[..|block| - 1], ignore) + (if Kept(block[|block| - 1].0, ignore) then [block[|block| - 1].0] else [])
  }

  /** `get_columns(star_file, ignore)`: the kept names of each block, block
      after block. */
  function Columns(file: StarFile, ignore: seq<string>): seq<string>
  {
    if |file| == 0 then [] else Columns(file[..|file| - 1], ignore) + KeptNames(file[|file| - 1].1, ignore)
  }

  /** A kept name is one of the block's names that contains no ignored string. */
  lemma {:induction false} KeptNamesMeaning(block: Block, ignore: seq<string>)
    ensures forall name :: name in KeptNames(block, ignore) <==>
      (exists c :: 0 <= c < |block| && block[c].0 == name) && Kept(name, ignore)
  {
    if |block| > 0 {
      var front := block[..|block| - 1];
      KeptNamesMeaning(front, ignore);
      assert forall c :: 0 <= c < |front| ==> front[c] == block[c];
    }
  }

  /** With nothing to ignore, every name of the block is kept, in order. */
  lemma {:induction false} KeptNamesAll(block: Block)
    ensures KeptNames(block, []) == KeysOf(block)
  {
    if |block| > 0 {
      var front := block[..|block| - 1];
      KeptNamesAll(front);
      assert KeysOf(block) == KeysOf(front) + [block[|block| - 1].0];
    }
  }

  /** `get_columns` lists exactly the names, over all blocks, that contain
      none of the ignored strings. */
  lemma {:induction false} ColumnsMeaning(file: StarFile, ignore: seq<string>)
    ensures forall name :: name in Columns(file, ignore) <==>
      (exists b, c :: 0 <= b < |file| && 0 <= c < |file[b].1| && file[b].1[c].0 == name) && Kept(name, ignore)
  {
    if |file| > 0 {
      var front := file[..|file| - 1];
      ColumnsMeaning(front, ignore);
      KeptNamesMeaning(file[|file| - 1].1, ignore);
      assert forall b :: 0 <= b < |front| ==> front[b] == file[b];
    }
  }

  /** All names of all blocks, block after block. */
  function AllNames(file: StarFile): seq<string>
  {
    if |file| == 0 then [] else AllNames(file[..|file| - 1]) + KeysOf(file[|file| - 1].1)
  }

  /** With no ignore list, `get_columns` is every name of every block, in order. */
  lemma {:induction false} ColumnsWithoutIgnore(file: StarFile)
    ensures Columns(file, []) == AllNames(file)
  {
    if |file| > 0 {
      ColumnsWithoutIgnore(file[..|file| - 1]);
      KeptNamesAll(file[|file| - 1].1);
    }
  }

  /** `get_columns`: the loop over the blocks, taking the filtered names when
      an ignore list is given and all names otherwise. */
  method GetColumns(file: StarFile, ignore: seq<string>) returns (cols: seq<string>)
    ensures cols == Columns(file, ignore)
  {
    cols := [];
    for b := 0 to |file|
      invariant cols == Columns(file[..b], ignore)
    {
      assert file[..b + 1][..b] == file[..b];
      var block := file[b].1;
      if |ignore| > 0 {
        var vals := KeptNames(block, ignore);
        cols := cols + vals;
      } else {
        KeptNamesAll(block);
        cols := cols + KeysOf(block);
      }
    }
    assert file[..|file|] == file;
  }

  // ---------------------------------------------------------------------
  // get_column_data.

  /** The entries of a block whose name is one of the columns, in block order. */
  function Select(block: Block, columns: seq<string>): Block
  {
    if |block| == 0 then []
    else Select(block[..|block| - 1], columns) + (if block[|block| - 1].0 in columns then [block[|block| - 1]] else [])
  }

  /** `get_column_data(star_file, columns, block_tag)`: KeyError for a
      missing block, else the selected entries of the block. */
  function ColumnData(file: StarFile, columns: seq<string>, blockTag: string): Result<Block>
  {
    match Lookup(file, blockTag)
    case None => Err(KeyError)
    case Some(block) => Ok(Select(block, columns))
  }

  /** Select keeps exactly the entries whose name is listed. */
  lemma {:induction false} SelectMeaning(block: Block, columns: seq<string>)
    ensures forall e :: e in Select(block, columns) <==> e in block && e.0 in columns
  {
    if |block| > 0 {
      SelectMeaning(block[..|block| - 1], columns);
      assert block == block[..|block| - 1] + [block[|block| - 1]];
    }
  }

  /** `get_column_data` fails exactly for a missing block, and otherwise
      holds exactly the block's entries whose name is one of the columns. */
  lemma ColumnDataMeaning(file: StarFile, columns: seq<string>, blockTag: string)
    ensures ColumnData(file, columns, blockTag).Err? <==> forall b :: 0 <= b < |file| ==> file[b].0 != blockTag
    ensures ColumnData(file, columns, blockTag).Err? ==> ColumnData(file, columns, blockTag).error == KeyError
    ensures ColumnData(file, columns, blockTag).Ok? ==>
      exists b :: 0 <= b < |file| && file[b].0 == blockTag &&
        (forall e :: e in ColumnData(file, columns, blockTag).value <==> e in file[b].1 && e.0 in columns)
  {
    match Lookup(file, blockTag)
    case None =>
    case Some(block) =>
      SelectMeaning(block, columns);
  }

  // ---------------------------------------------------------------------
  // _structure_particle_data.

  /** Python's `s.replace(pat, "")` for a non-empty pattern: occurrences are
      removed left to right without overlapping. */
  function RemoveAll(s: string, pat: string): string
    requires |pat| > 0
    decreases |s|
  {
    if |s| < |pat| then s
    else if s[..|pat|] == pat then RemoveAll(s[|pat|..], pat)
    else [s[0]] + RemoveAll(s[1..], pat)
  }

  /** A string without the pattern is left as it is. */
  lemma {:induction false} RemoveAllAbsent(s: string, pat: string)
    requires |pat| > 0
    requires !Occurs(pat, s)
    ensures RemoveAll(s, pat) == s
    decreases |s|
  {
    if |s| >= |pat| {
      RemoveAllAbsent(s[1..], pat);
    }
  }

  /** The exposure name of a micrograph path:
      `Path(p).stem.replace("_fractions", "") + ".jpg"`, with the stem of the
      path given. */
  function ExposureName(stem: Cell -> string, path: Cell): string
  {
    RemoveAll(stem(path), "_fractions") + ".jpg"
  }

  /** The micrograph with stem "A_fractions" is the exposure "A.jpg". */
  lemma ExposureNameExample(stem: Cell -> string, path: Cell)
    requires stem(path) == "A_fractions"
    ensures ExposureName(stem, path) == "A.jpg"
  {
    var p := "_fractions";
    var s := "A_fractions";
    assert s[..10][0] != p[0];
    assert s[1..] == p && p[..10] == p && p[10..] == "";
    assert RemoveAll(s[1..], p) == "";
  }

  /** `data[tag][i]`: KeyError for a missing column, IndexError past its end. */
  function CellAt(data: Block, tag: string, i: nat): Result<Cell>
  {
    match Lookup(data, tag)
    case None => Err(KeyError)
    case Some(column) => At(column, i)
  }

  /** `(data[x_tag][i], data[y_tag][i])`, x first. */
  function Coordinate(data: Block, xTag: string, yTag: string, i: nat): Result<(Cell, Cell)>
  {
    match CellAt(data, xTag, i)
    case Err(e) => Err(e)
    case Ok(x) =>
      match CellAt(data, yTag, i)
      case Err(e) => Err(e)
      case Ok(y) => Ok((x, y))
  }

  /** `structured_data[exposure]`: the coordinates of the exposure's rows and
      their row indices, in row order. */
  datatype Group = Group(coordinates: seq<(Cell, Cell)>, indices: seq<nat>)

  type Groups = map<string, Group>

  /** Row i with coordinate c appended to the group of its exposure, which is
      created when missing. */
  function Record(groups: Groups, name: string, c: (Cell, Cell), i: nat): Groups
  {
    groups[name := if name in groups then Group(groups[name].coordinates + [c], groups[name].indices + [i]) else Group([c], [i])]
  }

  /** Row i visited: recorded when its exposure is one of the exposures. */
  function Visit(groups: Groups, data: Block, exposures: seq<string>, names: seq<Cell>, xTag: string, yTag: string,
                 stem: Cell -> string, i: nat): Result<Groups>
    requires i < |names|
  {
    var name := ExposureName(stem, names[i]);
    if name !in exposures then Ok(groups)
    else
      match Coordinate(data, xTag, yTag, i)
      case Err(e) => Err(e)
      case Ok(c) => Ok(Record(groups, name, c, i))
  }

  /** The groups after the first n rows of the exposure column `names`. */
  function StructureRows(data: Block, exposures: seq<string>, names: seq<Cell>, xTag: string, yTag: string,
                         stem: Cell -> string, n: nat): Result<Groups>
    requires n <= |names|
  {
    if n == 0 then Ok(map[])
    else
      match StructureRows(data, exposures, names, xTag, yTag, stem, n - 1)
      case Err(e) => Err(e)
      case Ok(groups) => Visit(groups, data, exposures, names, xTag, yTag, stem, n - 1)
  }

  /** `_structure_particle_data(data, exposures, exposure_tag, x_tag, y_tag)`. */
  function StructureParticles(data: Block, exposures: seq<string>, exposureTag: string, xTag: string, yTag: string,
                              stem: Cell -> string): Result<Groups>
  {
    match Lookup(data, exposureTag)
    case None => Err(KeyError)
    case Some(names) => StructureRows(data, exposures, names, xTag, yTag, stem, |names|)
  }

  /** An error stops the grouping: it is the outcome for every longer prefix. */
  lemma {:induction false} StructureRowsRaiseOnward(data: Block, exposures: seq<string>, names: seq<Cell>, xTag: string, yTag: string,
                                                    stem: Cell -> string, n: nat, m: nat)
    requires n <= m <= |names|
    requires StructureRows(data, exposures, names, xTag, yTag, stem, n).Err?
    ensures StructureRows(data, exposures, names, xTag, yTag, stem, m) == StructureRows(data, exposures, names, xTag, yTag, stem, n)
    decreases m - n
  {
    if n < m {
      StructureRowsRaiseOnward(data, exposures, names, xTag, yTag, stem, n + 1, m);
    }
  }

  /** Every recorded group belongs to one of the exposures; its coordinates
      and indices are parallel, the indices strictly increase, and entry j is
      the coordinate of row indices[j], a row whose exposure is the group's. */
  lemma {:induction false} GroupAligned(data: Block, exposures: seq<string>, names: seq<Cell>, xTag: string, yTag: string,
                                        stem: Cell -> string, n: nat, e: string)
    requires n <= |names|
    requires StructureRows(data, exposures, names, xTag, yTag, stem, n).Ok?
    requires e in StructureRows(data, exposures, names, xTag, yTag, stem, n).value
    ensures var g := StructureRows(data, exposures, names, xTag, yTag, stem, n).value[e];
      && e in exposures
      && |g.coordinates| == |g.indices|
      && (forall a, b :: 0 <= a < b < |g.indices| ==> g.indices[a] < g.indices[b])
      && (forall j :: 0 <= j < |g.indices| ==> g.indices[j] < n && ExposureName(stem, names[g.indices[j]]) == e)
      && (forall j :: 0 <= j < |g.indices| ==> Coordinate(data, xTag, yTag, g.indices[j]) == Ok(g.coordinates[j]))
  {
    var before := StructureRows(data, exposures, names, xTag, yTag, stem, n - 1).value;
    var name := ExposureName(stem, names[n - 1]);
    if e in before {
      GroupAligned(data, exposures, names, xTag, yTag, stem, n - 1, e);
    }
  }

  /** Every row of n whose exposure is one of the exposures is recorded in
      that exposure's group. */
  lemma {:induction false} GroupComplete(data: Block, exposures: seq<string>, names: seq<Cell>, xTag: string, yTag: string,
                                         stem: Cell -> string, n: nat, i: nat)
    requires i < n <= |names|
    requires StructureRows(data, exposures, names, xTag, yTag, stem, n).Ok?
    requires ExposureName(stem, names[i]) in exposures
    ensures ExposureName(stem, names[i]) in StructureRows(data, exposures, names, xTag, yTag, stem, n).value
    ensures i in StructureRows(data, exposures, names, xTag, yTag, stem, n).value[ExposureName(stem, names[i])].indices
  {
    if i < n - 1 {
      GroupComplete(data, exposures, names, xTag, yTag, stem, n - 1, i);
    }
  }

  /** The grouping fails exactly when some row of one of the exposures lacks
      an x or y cell. */
  lemma {:induction false} StructureRowsFail(data: Block, exposures: seq<string>, names: seq<Cell>, xTag: string, yTag: string,
                                             stem: Cell -> string, n: nat)
    requires n <= |names|
    ensures StructureRows(data, exposures, names, xTag, yTag, stem, n).Err? <==>
      exists i :: 0 <= i < n && ExposureName(stem, names[i]) in exposures && Coordinate(data, xTag, yTag, i).Err?
  {
    if n > 0 {
      StructureRowsFail(data, exposures, names, xTag, yTag, stem, n - 1);
    }
  }

  /** `_structure_particle_data`: one pass over the exposure column, appending
      each listed row's coordinate and index to its exposure's group. */
  method StructureParticleData(data: Block, exposures: seq<string>, exposureTag: string, xTag: string, yTag: string,
                               stem: Cell -> string) returns (r: Result<Groups>)
    ensures r == StructureParticles(data, exposures, exposureTag, xTag, yTag, stem)
  {
    var column := Lookup(data, exposureTag);
    if column.None? {
      return Err(KeyError);
    }
    var names := column.value;
    var structured: Groups := map[];
    for i := 0 to |names|
      invariant StructureRows(data, exposures, names, xTag, yTag, stem, i) == Ok(structured)
    {
      var name := ExposureName(stem, names[i]);
      if name in exposures {
        var c := Coordinate(data, xTag, yTag, i);
        if c.Err? {
          StructureRowsRaiseOnward(data, exposures, names, xTag, yTag, stem, i + 1, |names|);
          return Err(c.error);
        }
        if name in structured {
          structured := structured[name := Group(structured[name].coordinates + [c.value], structured[name].indices + [i])];
        } else {
          structured := structured[name := Group([c.value], [i])];
        }
      }
    }
    return Ok(structured);
  }
}
