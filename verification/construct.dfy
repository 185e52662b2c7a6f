/** Following foreign keys through the schema (src/cryotrace/data_model/construct.py):
    the one foreign key of a table, the table it points to, the chain of
    tables from a start table up to an end table, and the join list that
    links consecutive tables of a chain. */
module Construct {
  import opened Common
  import opened Schema

  // ---------------------------------------------------------------------
  // _foreign_key

  /** The referenced column of a table's only foreign key. Collecting
      `fk.column.name` for every key first raises NoReferencedTableError at a
      key naming no mapped table; then more than one key raises ValueError,
      and none makes `keys[0]` raise IndexError. */
  function ReferencedColumn(g: SchemaGraph, t: Table): Result<string>
  {
    var ks := g.keys(t);
    if exists i :: 0 <= i < |ks| && !Mapped(g, ks[i]) then Err(NoReferencedTableError)
    else if |ks| > 1 then Err(ValueError)
    else if |ks| == 0 then Err(IndexError)
    else Ok(ks[0].targetColumn)
  }

  /** The exception of `_foreign_key`, or its column, in terms of the keys. */
  lemma ReferencedColumnMeaning(g: SchemaGraph, t: Table)
    ensures ReferencedColumn(g, t) == Err(NoReferencedTableError) <==>
      exists i :: 0 <= i < |g.keys(t)| && !Mapped(g, g.keys(t)[i])
    ensures ReferencedColumn(g, t).Ok? <==> |g.keys(t)| == 1 && Mapped(g, g.keys(t)[0])
    ensures ReferencedColumn(g, t).Ok? ==> ReferencedColumn(g, t).value == g.keys(t)[0].targetColumn
    ensures ReferencedColumn(g, t) == Err(ValueError) <==>
      |g.keys(t)| > 1 && forall i :: 0 <= i < |g.keys(t)| ==> Mapped(g, g.keys(t)[i])
    ensures ReferencedColumn(g, t) == Err(IndexError) <==> |g.keys(t)| == 0
  {
  }

  /** `_foreign_key`: collects the referenced column of every foreign key of
      `t` in column order, then picks the only one. */
  method ForeignKeyColumn(g: SchemaGraph, t: Table) returns (r: Result<string>)
    ensures r == ReferencedColumn(g, t)
    ensures r == Err(NoReferencedTableError) <==> exists i :: 0 <= i < |g.keys(t)| && !Mapped(g, g.keys(t)[i])
    ensures r.Ok? <==> |g.keys(t)| == 1 && Mapped(g, g.keys(t)[0])
    ensures r.Ok? ==> r.value == g.keys(t)[0].targetColumn
    ensures r == Err(ValueError) <==> |g.keys(t)| > 1 && forall i :: 0 <= i < |g.keys(t)| ==> Mapped(g, g.keys(t)[i])
  {
    ReferencedColumnMeaning(g, t);
    var ks := g.keys(t);
    var keys: seq<string> := [];
    for i := 0 to |ks|
      invariant |keys| == i
      invariant forall j :: 0 <= j < i ==> Mapped(g, ks[j]) && keys[j] == ks[j].targetColumn
    {
      if NamedIn(g.mapped, g.tableName, ks[i].targetTable).None? {
        return Err(NoReferencedTableError);
      }
      keys := keys + [ks[i].targetColumn];
    }
    if |keys| > 1 {
      return Err(ValueError);
    }
    if |keys| == 0 {
      return Err(IndexError);
    }
    return Ok(keys[0]);
  }

  // ---------------------------------------------------------------------
  // _analyse_table

  /** Key i is the first of `ks` that does not resolve, and it raises `e`. */
  predicate FirstUnresolved(g: SchemaGraph, ks: seq<ForeignKey>, i: int, e: PyError)
  {
    && 0 <= i < |ks|
    && Resolve(g, ks[i]) == Err(e)
    && forall j :: 0 <= j < i ==> Resolve(g, ks[j]).Ok?
  }

  /** The tables the keys `ks` point to, resolved in column order; the first
      key that does not resolve decides the exception. */
  function Targets(g: SchemaGraph, ks: seq<ForeignKey>): (r: Result<seq<Table>>)
    ensures r.Ok? <==> forall i :: 0 <= i < |ks| ==> Resolve(g, ks[i]).Ok?
    ensures r.Err? ==> exists i :: FirstUnresolved(g, ks, i, r.error)
    ensures r.Err? ==> r.error == NoReferencedTableError || r.error == KeyError
    ensures r.Ok? ==> |r.value| == |ks|
    ensures r.Ok? ==> forall i :: 0 <= i < |ks| ==> Resolve(g, ks[i]) == Ok(r.value[i])
    decreases |ks|
  {
    if |ks| == 0 then Ok([])
    else
      var front := ks[..|ks| - 1];
      assert forall i :: 0 <= i < |front| ==> front[i] == ks[i];
      match Targets(g, front)
      case Err(e) =>
        FirstUnresolvedExtends(g, ks, |ks| - 1, e);
        Err(e)
      case Ok(ts) =>
        match Resolve(g, ks[|ks| - 1])
        case Err(e) =>
          FirstUnresolvedAtEnd(g, ks, e);
          Err(e)
        case Ok(t) => Ok(ts + [t])
  }

  /** The first unresolved key of a prefix is the first of the whole list. */
  lemma FirstUnresolvedExtends(g: SchemaGraph, ks: seq<ForeignKey>, n: nat, e: PyError)
    requires n <= |ks| && exists i :: FirstUnresolved(g, ks[..n], i, e)
    ensures exists i :: FirstUnresolved(g, ks, i, e)
  {
    var i :| FirstUnresolved(g, ks[..n], i, e);
    assert FirstUnresolved(g, ks, i, e);
  }

  /** A last key that fails after all others resolve is the first that fails. */
  lemma FirstUnresolvedAtEnd(g: SchemaGraph, ks: seq<ForeignKey>, e: PyError)
    requires |ks| > 0 && Resolve(g, ks[|ks| - 1]) == Err(e)
    requires forall j :: 0 <= j < |ks| - 1 ==> Resolve(g, ks[j]).Ok?
    ensures exists i :: FirstUnresolved(g, ks, i, e)
  {
    assert FirstUnresolved(g, ks, |ks| - 1, e);
  }

  /** At most one key is the first that does not resolve. */
  lemma FirstUnresolvedUnique(g: SchemaGraph, ks: seq<ForeignKey>, i: int, e: PyError, i': int, e': PyError)
    requires FirstUnresolved(g, ks, i, e) && FirstUnresolved(g, ks, i', e')
    ensures i == i' && e == e'
  {
  }

  /** The table that `_analyse_table` moves to: None for a table without keys,
      its parent for a table with one key, and otherwise the exception. */
  function NextTable(g: SchemaGraph, t: Table): (r: Result<Option<Table>>)
    ensures r == Ok(None) <==> |g.keys(t)| == 0
    ensures (r.Ok? && r.value.Some?) <==> Parent(g, t).Some?
    ensures r.Ok? && r.value.Some? ==> r.value == Parent(g, t)
  {
    match Targets(g, g.keys(t))
    case Err(e) => Err(e)
    case Ok(ts) =>
      if |ts| > 1 then Err(ValueError)
      else if |ts| == 0 then Ok(None)
      else Ok(Some(ts[0]))
  }

  /** `_analyse_table` raises NoReferencedTableError exactly when the first
      key that does not resolve names no mapped table, KeyError exactly when
      it names a mapped table missing from the registry, and ValueError
      exactly when the table has several keys that all resolve. */
  lemma NextTableRaises(g: SchemaGraph, t: Table)
    ensures NextTable(g, t) == Err(NoReferencedTableError) <==>
      exists i :: FirstUnresolved(g, g.keys(t), i, NoReferencedTableError)
    ensures NextTable(g, t) == Err(KeyError) <==> exists i :: FirstUnresolved(g, g.keys(t), i, KeyError)
    ensures NextTable(g, t) == Err(ValueError) <==>
      |g.keys(t)| > 1 && forall i :: 0 <= i < |g.keys(t)| ==> Resolve(g, g.keys(t)[i]).Ok?
  {
    var ks := g.keys(t);
    var r := Targets(g, ks);
    if r.Err? {
      var i :| FirstUnresolved(g, ks, i, r.error);
      forall i', e' | FirstUnresolved(g, ks, i', e') ensures e' == r.error {
        FirstUnresolvedUnique(g, ks, i, r.error, i', e');
      }
    }
  }

  /** Resolving one more key: a key that does not resolve raises its
      exception for the whole key list, one that resolves extends the
      resolved prefix by its table. */
  lemma TargetsStep(g: SchemaGraph, ks: seq<ForeignKey>, i: nat, ts: seq<Table>)
    requires i < |ks| && Targets(g, ks[..i]) == Ok(ts)
    ensures Resolve(g, ks[i]).Err? ==> Targets(g, ks) == Err(Resolve(g, ks[i]).error)
    ensures Resolve(g, ks[i]).Ok? ==> Targets(g, ks[..i + 1]) == Ok(ts + [Resolve(g, ks[i]).value])
  {
    assert ks[..i + 1][..i] == ks[..i];
    if Resolve(g, ks[i]).Err? {
      assert FirstUnresolved(g, ks, i, Resolve(g, ks[i]).error);
      var j :| FirstUnresolved(g, ks, j, Targets(g, ks).error);
      FirstUnresolvedUnique(g, ks, i, Resolve(g, ks[i]).error, j, Targets(g, ks).error);
    }
  }

  /** `_analyse_table`: resolves the target of every key in column order, then
      rejects more than one. */
  method AnalyseTable(g: SchemaGraph, t: Table) returns (r: Result<Option<Table>>)
    ensures r == NextTable(g, t)
  {
    var ks := g.keys(t);
    var nextTables: seq<Table> := [];
    for i := 0 to |ks|
      invariant Targets(g, ks[..i]) == Ok(nextTables)
    {
      var found := Resolve(g, ks[i]);
      TargetsStep(g, ks, i, nextTables);
      if found.Err? {
        return Err(found.error);
      }
      nextTables := nextTables + [found.value];
    }
    assert ks[..|ks|] == ks;
    if |nextTables| > 1 {
      return Err(ValueError);
    }
    if |nextTables| == 0 {
      return Ok(None);
    }
    return Ok(Some(nextTables[0]));
  }

  // ---------------------------------------------------------------------
  // table_chain

  /** `tables` walks from its first table to `end` along parents: it never
      passes `end`, and it stops at `end` or at a table without keys. */
  predicate IsWalk(g: SchemaGraph, tables: seq<Table>, end: Table)
  {
    && |tables| >= 1
    && (forall i :: 0 <= i < |tables| - 1 ==> tables[i] != end && Parent(g, tables[i]) == Some(tables[i + 1]))
    && (tables[|tables| - 1] == end || g.keys(tables[|tables| - 1]) == [])
  }

  /** `prefix` followed by the chain `r`, or the exception `r` raises. */
  function Extend(prefix: seq<Table>, r: Result<seq<Table>>): (e: Result<seq<Table>>)
    ensures e.Ok? <==> r.Ok?
    ensures r.Ok? ==> e.value == prefix + r.value
    ensures r.Err? ==> e == r
    ensures prefix == [] ==> e == r
  {
    match r
    case Err(err) => Err(err)
    case Ok(ts) =>
      assert [] + ts == ts;
      Ok(prefix + ts)
  }

  /** `table_chain(start, end)`, for a schema that `rank` shows to be acyclic. */
  function Chain(g: SchemaGraph, rank: Table -> nat, start: Table, end: Table): (r: Result<seq<Table>>)
    requires Ranked(g, rank)
    ensures start == end ==> r == Ok([start])
    ensures r.Ok? ==> |r.value| >= 1 && r.value[0] == start
    ensures r.Err? ==> r.error in {KeyError, ValueError, NoReferencedTableError}
    decreases rank(start)
  {
    if start == end then Ok([start])
    else
      match NextTable(g, start)
      case Err(e) => Err(e)
      case Ok(None) => Ok([start])
      case Ok(Some(p)) => Extend([start], Chain(g, rank, p, end))
  }

  /** The rank strictly falls along `tables`. */
  ghost predicate Descending(rank: Table -> nat, tables: seq<Table>)
  {
    forall i, j :: 0 <= i < j < |tables| ==> rank(tables[j]) < rank(tables[i])
  }

  lemma DescendingCons(rank: Table -> nat, t: Table, rest: seq<Table>)
    requires |rest| >= 1 && Descending(rank, rest) && rank(rest[0]) < rank(t)
    ensures Descending(rank, [t] + rest)
  {
    var ts := [t] + rest;
    forall i, j | 0 <= i < j < |ts| ensures rank(ts[j]) < rank(ts[i]) {
      if i == 0 && j > 1 {
        assert rank(rest[j - 1]) < rank(rest[0]);
      }
    }
  }

  /** A descending sequence is no longer than its first rank allows. */
  lemma {:induction false} DescendingLength(rank: Table -> nat, tables: seq<Table>)
    requires |tables| >= 1 && Descending(rank, tables)
    ensures |tables| <= rank(tables[0]) + 1
    decreases |tables|
  {
    if |tables| > 1 {
      var rest := tables[1..];
      assert Descending(rank, rest) by {
        forall i, j | 0 <= i < j < |rest| ensures rank(rest[j]) < rank(rest[i]) {
          assert rest[i] == tables[i + 1] && rest[j] == tables[j + 1];
        }
      }
      DescendingLength(rank, rest);
      assert rank(tables[1]) < rank(tables[0]);
    }
  }

  lemma WalkCons(g: SchemaGraph, t: Table, rest: seq<Table>, end: Table)
    requires IsWalk(g, rest, end) && t != end && Parent(g, t) == Some(rest[0])
    ensures IsWalk(g, [t] + rest, end)
  {
    var ts := [t] + rest;
    forall i | 0 <= i < |ts| - 1 ensures ts[i] != end && Parent(g, ts[i]) == Some(ts[i + 1]) {
      if i > 0 {
        assert ts[i] == rest[i - 1] && ts[i + 1] == rest[i];
      }
    }
  }

  /** One step of the chain: from a table other than `end` that has a parent,
      the chain goes on from the parent. */
  lemma ChainStep(g: SchemaGraph, rank: Table -> nat, t: Table, end: Table)
    requires Ranked(g, rank)
    requires t != end && Parent(g, t).Some?
    ensures rank(Parent(g, t).value) < rank(t)
    ensures Chain(g, rank, t, end) == Extend([t], Chain(g, rank, Parent(g, t).value, end))
  {
  }

  /** The chain from a table with parent `p` is the table followed by the
      chain from `p`. */
  lemma ChainPrepend(g: SchemaGraph, rank: Table -> nat, t: Table, p: Table, end: Table, rest: seq<Table>)
    requires Ranked(g, rank)
    requires t != end && Parent(g, t) == Some(p) && Chain(g, rank, p, end) == Ok(rest)
    ensures Chain(g, rank, t, end) == Ok([t] + rest)
  {
    ChainStep(g, rank, t, end);
  }

  /** Prepending to a display is a display. */
  lemma Cons2(a: Table, b: Table)
    ensures [a] + [b] == [a, b]
  {
  }

  lemma Cons3(a: Table, b: Table, c: Table)
    ensures [a] + [b, c] == [a, b, c]
  {
  }

  lemma Cons4(a: Table, b: Table, c: Table, d: Table)
    ensures [a] + [b, c, d] == [a, b, c, d]
  {
  }

  lemma Cons5(a: Table, b: Table, c: Table, d: Table, e: Table)
    ensures [a] + [b, c, d, e] == [a, b, c, d, e]
  {
  }

  lemma Cons6(a: Table, b: Table, c: Table, d: Table, e: Table, f: Table)
    ensures [a] + [b, c, d, e, f] == [a, b, c, d, e, f]
  {
  }

  lemma Cons7(a: Table, b: Table, c: Table, d: Table, e: Table, f: Table, h: Table)
    ensures [a] + [b, c, d, e, f, h] == [a, b, c, d, e, f, h]
  {
  }

  /** The chain stops at a table without keys. */
  lemma ChainAtKeyless(g: SchemaGraph, rank: Table -> nat, t: Table, end: Table)
    requires Ranked(g, rank)
    requires g.keys(t) == []
    ensures Chain(g, rank, t, end) == Ok([t])
  {
    assert Targets(g, g.keys(t)) == Ok([]);
  }

  /** Every chain is a walk from its start table, and the rank strictly falls
      along it, so it is no longer than the start's rank allows. */
  lemma {:induction false} ChainIsWalk(g: SchemaGraph, rank: Table -> nat, start: Table, end: Table)
    requires Ranked(g, rank)
    requires Chain(g, rank, start, end).Ok?
    ensures IsWalk(g, Chain(g, rank, start, end).value, end)
    ensures Descending(rank, Chain(g, rank, start, end).value)
    ensures |Chain(g, rank, start, end).value| <= rank(start) + 1
    decreases rank(start)
  {
    if start != end && Parent(g, start).Some? {
      var p := Parent(g, start).value;
      ChainStep(g, rank, start, end);
      ChainIsWalk(g, rank, p, end);
      var rest := Chain(g, rank, p, end).value;
      WalkCons(g, start, rest, end);
      DescendingCons(rank, start, rest);
    }
    DescendingLength(rank, Chain(g, rank, start, end).value);
  }

  /** The tables of a chain are pairwise distinct. */
  lemma ChainVisitsOnce(g: SchemaGraph, rank: Table -> nat, start: Table, end: Table)
    requires Ranked(g, rank)
    requires Chain(g, rank, start, end).Ok?
    ensures var ts := Chain(g, rank, start, end).value;
      forall i, j :: 0 <= i < j < |ts| ==> ts[i] != ts[j]
  {
    ChainIsWalk(g, rank, start, end);
  }

  /** Conversely, every walk from `start` to `end` is the chain: the chain is
      the only walk there is. */
  lemma {:induction false} WalkIsChain(g: SchemaGraph, rank: Table -> nat, tables: seq<Table>, end: Table)
    requires Ranked(g, rank)
    requires IsWalk(g, tables, end)
    ensures Chain(g, rank, tables[0], end) == Ok(tables)
    decreases |tables|
  {
    if |tables| > 1 {
      var rest := tables[1..];
      WalkTail(g, tables, end);
      ChainStep(g, rank, tables[0], end);
      WalkIsChain(g, rank, rest, end);
      assert tables == [tables[0]] + rest;
    } else {
      assert tables == [tables[0]];
      if tables[0] != end {
        ChainAtKeyless(g, rank, tables[0], end);
      }
    }
  }

  lemma WalkTail(g: SchemaGraph, tables: seq<Table>, end: Table)
    requires IsWalk(g, tables, end) && |tables| > 1
    ensures IsWalk(g, tables[1..], end)
    ensures tables[0] != end && Parent(g, tables[0]) == Some(tables[1])
  {
    var rest := tables[1..];
    forall i | 0 <= i < |rest| - 1 ensures rest[i] != end && Parent(g, rest[i]) == Some(rest[i + 1]) {
      assert rest[i] == tables[i + 1] && rest[i + 1] == tables[i + 2];
    }
  }

  /** Every table of a walk but the last has one key, naming the next table. */
  lemma WalkKeys(g: SchemaGraph, tables: seq<Table>, end: Table)
    requires IsWalk(g, tables, end)
    ensures forall i :: 0 <= i < |tables| - 1 ==>
      Joinable(g, tables[i]) && Resolve(g, g.keys(tables[i])[0]) == Ok(tables[i + 1])
  {
    forall i | 0 <= i < |tables| - 1
      ensures Joinable(g, tables[i]) && Resolve(g, g.keys(tables[i])[0]) == Ok(tables[i + 1])
    {
      assert Parent(g, tables[i]) == Some(tables[i + 1]);
      ParentJoinable(g, tables[i]);
    }
  }

  lemma ExtendExtend(a: seq<Table>, b: seq<Table>, r: Result<seq<Table>>)
    ensures Extend(a, Extend(b, r)) == Extend(a + b, r)
  {
    if r.Ok? {
      assert a + (b + r.value) == (a + b) + r.value;
    }
  }

  /** A table with several resolvable keys other than `end` raises ValueError. */
  lemma SeveralKeysRaise(g: SchemaGraph, rank: Table -> nat, start: Table, end: Table)
    requires Ranked(g, rank)
    requires start != end && |g.keys(start)| > 1
    requires forall i :: 0 <= i < |g.keys(start)| ==> Resolve(g, g.keys(start)[i]).Ok?
    ensures Chain(g, rank, start, end) == Err(ValueError)
  {
  }

  /** `table_chain`: walks up one `_analyse_table` step at a time until it
      reaches `end` or a table without keys. */
  method TableChain(g: SchemaGraph, ghost rank: Table -> nat, start: Table, end: Table)
    returns (r: Result<seq<Table>>)
    requires Ranked(g, rank)
    ensures r == Chain(g, rank, start, end)
  {
    var tables := [start];
    var current := start;
    ghost var visited: seq<Table> := [];
    while current != end
      invariant tables == visited + [current]
      invariant Chain(g, rank, start, end) == Extend(visited, Chain(g, rank, current, end))
      decreases rank(current)
    {
      var next := AnalyseTable(g, current);
      if next.Err? {
        return Err(next.error);
      }
      if next.value.None? {
        break;
      }
      ChainStep(g, rank, current, end);
      ExtendExtend(visited, [current], Chain(g, rank, next.value.value, end));
      visited := visited + [current];
      current := next.value.value;
      tables := tables + [current];
    }
    return Ok(tables);
  }

  // ---------------------------------------------------------------------
  // The chains that tests/data_model/test_construct.py expects.

  /** In any schema with the full schema's parent relation, the chains from
      the info tables are the ones the tests expect; FullParents shows that
      FullSchema is such a schema. */
  lemma ExposureInfoChainWithFullParents(g: SchemaGraph)
    requires HasParents(g, FullParentOf)
    ensures Ranked(g, Level)
    ensures Chain(g, Level, ExposureInfo, Atlas) == Ok([ExposureInfo, Exposure, FoilHole, GridSquare, Tile, Atlas])
  {
    FullRanked(g);
    FullExposureChain(g);
    ChainPrepend(g, Level, ExposureInfo, Exposure, Atlas, [Exposure, FoilHole, GridSquare, Tile, Atlas]);
    Cons6(ExposureInfo, Exposure, FoilHole, GridSquare, Tile, Atlas);
  }

  lemma ParticleInfoChainWithFullParents(g: SchemaGraph)
    requires HasParents(g, FullParentOf)
    ensures Ranked(g, Level)
    ensures Chain(g, Level, ParticleInfo, Atlas) == Ok([ParticleInfo, Particle, Exposure, FoilHole, GridSquare, Tile, Atlas])
  {
    FullRanked(g);
    FullParticleChain(g);
    ChainPrepend(g, Level, ParticleInfo, Particle, Atlas, [Particle, Exposure, FoilHole, GridSquare, Tile, Atlas]);
    Cons7(ParticleInfo, Particle, Exposure, FoilHole, GridSquare, Tile, Atlas);
  }

  lemma ParticleSetInfoChainWithFullParents(g: SchemaGraph)
    requires HasParents(g, FullParentOf)
    ensures Ranked(g, Level)
    ensures Chain(g, Level, ParticleSetInfo, Atlas) == Ok([ParticleSetInfo, ParticleSet, Project, Atlas])
  {
    FullRanked(g);
    ChainPrepend(g, Level, Project, Atlas, Atlas, [Atlas]);
    Cons2(Project, Atlas);
    ChainPrepend(g, Level, ParticleSet, Project, Atlas, [Project, Atlas]);
    Cons3(ParticleSet, Project, Atlas);
    ChainPrepend(g, Level, ParticleSetInfo, ParticleSet, Atlas, [ParticleSet, Project, Atlas]);
    Cons4(ParticleSetInfo, ParticleSet, Project, Atlas);
  }

  lemma FullRanked(g: SchemaGraph)
    requires HasParents(g, FullParentOf)
    ensures Ranked(g, Level)
  {
    ParentsLowerLevel();
    RankedByParents(g, FullParentOf, Level);
  }

  /** With the full parents, the chain from a grid square passes the tile. */
  lemma FullGridSquareChain(g: SchemaGraph)
    requires HasParents(g, FullParentOf) && Ranked(g, Level)
    ensures Chain(g, Level, GridSquare, Atlas) == Ok([GridSquare, Tile, Atlas])
  {
    ChainPrepend(g, Level, Tile, Atlas, Atlas, [Atlas]);
    Cons2(Tile, Atlas);
    ChainPrepend(g, Level, GridSquare, Tile, Atlas, [Tile, Atlas]);
    Cons3(GridSquare, Tile, Atlas);
  }

  lemma FullExposureChain(g: SchemaGraph)
    requires HasParents(g, FullParentOf) && Ranked(g, Level)
    ensures Chain(g, Level, Exposure, Atlas) == Ok([Exposure, FoilHole, GridSquare, Tile, Atlas])
  {
    FullGridSquareChain(g);
    ChainPrepend(g, Level, FoilHole, GridSquare, Atlas, [GridSquare, Tile, Atlas]);
    Cons4(FoilHole, GridSquare, Tile, Atlas);
    ChainPrepend(g, Level, Exposure, FoilHole, Atlas, [FoilHole, GridSquare, Tile, Atlas]);
    Cons5(Exposure, FoilHole, GridSquare, Tile, Atlas);
  }

  lemma FullParticleChain(g: SchemaGraph)
    requires HasParents(g, FullParentOf) && Ranked(g, Level)
    ensures Chain(g, Level, Particle, Atlas) == Ok([Particle, Exposure, FoilHole, GridSquare, Tile, Atlas])
  {
    FullExposureChain(g);
    ChainPrepend(g, Level, Particle, Exposure, Atlas, [Exposure, FoilHole, GridSquare, Tile, Atlas]);
    Cons6(Particle, Exposure, FoilHole, GridSquare, Tile, Atlas);
  }

  /** The chains of tests/data_model/test_construct.py on the full schema. */
  lemma FullInfoChains()
    ensures Ranked(FullSchema, Level)
    ensures Chain(FullSchema, Level, ExposureInfo, Atlas) == Ok([ExposureInfo, Exposure, FoilHole, GridSquare, Tile, Atlas])
    ensures Chain(FullSchema, Level, ParticleInfo, Atlas) == Ok([ParticleInfo, Particle, Exposure, FoilHole, GridSquare, Tile, Atlas])
    ensures Chain(FullSchema, Level, ParticleSetInfo, Atlas) == Ok([ParticleSetInfo, ParticleSet, Project, Atlas])
  {
    FullParents();
    ExposureInfoChainWithFullParents(FullSchema);
    ParticleInfoChainWithFullParents(FullSchema);
    ParticleSetInfoChainWithFullParents(FullSchema);
  }

  /** A link table with the full schema's two keys, in a schema that
      registers Particle and ParticleSet under those names, makes the chain
      from it raise ValueError. */
  lemma LinkerChainRaisesWith(g: SchemaGraph)
    requires Ranked(g, Level) && ConsistentNames(g)
    requires g.keys(ParticleSetLinker) == FullKeys(ParticleSetLinker)
    requires Particle in g.tables && g.tableName(Particle) == "Particle"
    requires ParticleSet in g.tables && g.tableName(ParticleSet) == "ParticleSet"
    ensures Chain(g, Level, ParticleSetLinker, Atlas) == Err(ValueError)
  {
    var ks := g.keys(ParticleSetLinker);
    ResolvesTo(g, ks[0], Particle);
    ResolvesTo(g, ks[1], ParticleSet);
    SeveralKeysRaise(g, Level, ParticleSetLinker, Atlas);
  }

  /** ParticleSetLinker points to both Particle and ParticleSet, so the chain
      from it raises ValueError. */
  lemma FullLinkerChainRaises()
    ensures Ranked(FullSchema, Level) && Chain(FullSchema, Level, ParticleSetLinker, Atlas) == Err(ValueError)
  {
    LevelRanksFull();
    FullConsistentNames();
    assert Particle in FullTables && ParticleSet in FullTables;
    LinkerChainRaisesWith(FullSchema);
  }

  /** In any schema with the corrected parent relation and a keyless Atlas, a
      particle's chain reaches the atlas, and a chain whose end is not above
      its start runs on to the atlas. */
  lemma ChainsWithCorrectedParents(g: SchemaGraph)
    requires HasParents(g, CorrectedParentOf) && g.keys(Atlas) == []
    ensures Ranked(g, Level)
    ensures Chain(g, Level, Particle, Atlas) == Ok([Particle, Exposure, FoilHole, GridSquare, Atlas])
    ensures Chain(g, Level, FoilHole, Exposure) == Ok([FoilHole, GridSquare, Atlas])
  {
    ParentsLowerLevel();
    RankedByParents(g, CorrectedParentOf, Level);
    CorrectedParticleWalk(g);
    CorrectedFoilHoleWalk(g);
  }

  lemma CorrectedParticleWalk(g: SchemaGraph)
    requires HasParents(g, CorrectedParentOf) && g.keys(Atlas) == [] && Ranked(g, Level)
    ensures Chain(g, Level, Particle, Atlas) == Ok([Particle, Exposure, FoilHole, GridSquare, Atlas])
  {
    CorrectedFoilHoleToAtlas(g);
    ChainPrepend(g, Level, Exposure, FoilHole, Atlas, [FoilHole, GridSquare, Atlas]);
    Cons4(Exposure, FoilHole, GridSquare, Atlas);
    ChainPrepend(g, Level, Particle, Exposure, Atlas, [Exposure, FoilHole, GridSquare, Atlas]);
    Cons5(Particle, Exposure, FoilHole, GridSquare, Atlas);
  }

  lemma CorrectedFoilHoleToAtlas(g: SchemaGraph)
    requires HasParents(g, CorrectedParentOf) && Ranked(g, Level)
    ensures Chain(g, Level, FoilHole, Atlas) == Ok([FoilHole, GridSquare, Atlas])
  {
    ChainPrepend(g, Level, GridSquare, Atlas, Atlas, [Atlas]);
    Cons2(GridSquare, Atlas);
    ChainPrepend(g, Level, FoilHole, GridSquare, Atlas, [GridSquare, Atlas]);
    Cons3(FoilHole, GridSquare, Atlas);
  }

  lemma CorrectedFoilHoleWalk(g: SchemaGraph)
    requires HasParents(g, CorrectedParentOf) && g.keys(Atlas) == [] && Ranked(g, Level)
    ensures Chain(g, Level, FoilHole, Exposure) == Ok([FoilHole, GridSquare, Atlas])
  {
    ChainAtKeyless(g, Level, Atlas, Exposure);
    ChainPrepend(g, Level, GridSquare, Atlas, Exposure, [Atlas]);
    Cons2(GridSquare, Atlas);
    ChainPrepend(g, Level, FoilHole, GridSquare, Exposure, [GridSquare, Atlas]);
    Cons3(FoilHole, GridSquare, Atlas);
  }

  /** With FoilHole registered under its class name, a particle's chain
      reaches the atlas. */
  lemma CorrectedChains()
    ensures Ranked(CorrectedSchema, Level)
    ensures Chain(CorrectedSchema, Level, Particle, Atlas) == Ok([Particle, Exposure, FoilHole, GridSquare, Atlas])
    ensures Chain(CorrectedSchema, Level, FoilHole, Exposure) == Ok([FoilHole, GridSquare, Atlas])
  {
    CorrectedParents();
    ChainsWithCorrectedParents(CorrectedSchema);
  }

  /** As declared, the chain from an exposure raises NoReferencedTableError:
      its key names "FoilHole", and FoilHole is mapped as "FoliHole". */
  lemma DeclaredExposureChainRaises()
    ensures Ranked(DeclaredSchema, Level)
    ensures Chain(DeclaredSchema, Level, Exposure, Atlas) == Err(NoReferencedTableError)
  {
    LevelRanksDeclared();
    DeclaredExposureKeyUnresolved();
    assert FirstUnresolved(DeclaredSchema, DeclaredKeys(Exposure), 0, NoReferencedTableError);
    NextTableRaises(DeclaredSchema, Exposure);
  }

  // ---------------------------------------------------------------------
  // linear_joins

  /** A column of a table, as in `getattr(table, column)`. */
  datatype ColumnRef = ColumnRef(table: Table, column: string)

  /** `query.join(target, left == right)`. */
  datatype Join = Join(target: Table, left: ColumnRef, right: ColumnRef)

  /** `session.query(*selected)` followed by `joins` in order. */
  datatype Query = Query(selected: seq<Table>, joins: seq<Join>)

  /** The join that linear_joins builds between `a` and the next table `b`:
      each side names the column that its own table's foreign key references. */
  function WrittenJoin(g: SchemaGraph, a: Table, b: Table): Result<Join>
  {
    match ReferencedColumn(g, a)
    case Err(e) => Err(e)
    case Ok(ca) =>
      match ReferencedColumn(g, b)
      case Err(e) => Err(e)
      case Ok(cb) => Ok(Join(a, ColumnRef(a, ca), ColumnRef(b, cb)))
  }

  /** `_foreign_key` succeeds on `t`: it has one key, which names a mapped table. */
  predicate Joinable(g: SchemaGraph, t: Table)
  {
    |g.keys(t)| == 1 && Mapped(g, g.keys(t)[0])
  }

  /** Table k is the first of `tables` on which `_foreign_key` raises, and it
      raises `e` there (ReferencedColumnMeaning says which exception). */
  predicate FirstBadKey(g: SchemaGraph, tables: seq<Table>, k: int, e: PyError)
    requires 0 <= k < |tables|
  {
    && (forall i :: 0 <= i < k ==> Joinable(g, tables[i]))
    && !Joinable(g, tables[k])
    && ReferencedColumn(g, tables[k]) == Err(e)
  }

  /** The first `n` joins of linear_joins, in loop order. */
  function WrittenJoins(g: SchemaGraph, tables: seq<Table>, n: nat): Result<seq<Join>>
    requires n < |tables|
  {
    if n == 0 then Ok([])
    else
      match WrittenJoins(g, tables, n - 1)
      case Err(e) => Err(e)
      case Ok(js) =>
        match WrittenJoin(g, tables[n - 1], tables[n])
        case Err(e) => Err(e)
        case Ok(j) => Ok(js + [j])
  }

  /** `linear_joins(tables)` as written. */
  function WrittenQuery(g: SchemaGraph, tables: seq<Table>): Result<Query>
  {
    if |tables| == 0 then Ok(Query(tables, []))
    else
      match WrittenJoins(g, tables, |tables| - 1)
      case Err(e) => Err(e)
      case Ok(js) => Ok(Query(tables, js))
  }

  /** The written join between tables i and i + 1 of a list whose tables all
      have one key. */
  function WrittenJoinAt(g: SchemaGraph, tables: seq<Table>, i: nat): Join
    requires i + 1 < |tables|
    requires Joinable(g, tables[i]) && Joinable(g, tables[i + 1])
  {
    Join(tables[i], ColumnRef(tables[i], g.keys(tables[i])[0].targetColumn),
         ColumnRef(tables[i + 1], g.keys(tables[i + 1])[0].targetColumn))
  }

  /** `getattr(tab, _foreign_key(tab))` looks up an attribute named after the
      REFERENCED column; the model takes that lookup to succeed. In the schema
      of __init__.py it does: every key column bears the name of the column it
      references. In the fuller schema ParticleSetInfo's key `set_name`
      references `identifier`, so there the lookup would not find its column. */
  lemma KeyColumnsNamedAsTargets(t: Table)
    ensures forall i :: 0 <= i < |DeclaredKeys(t)| ==> DeclaredKeys(t)[i].column == DeclaredKeys(t)[i].targetColumn
    ensures FullKeys(ParticleSetInfo)[0].column != FullKeys(ParticleSetInfo)[0].targetColumn
  {
  }

  /** The first n written joins succeed exactly when `_foreign_key` succeeds
      on tables 0..n, and join i then compares the referenced columns of
      tables i and i + 1; otherwise the first table on which `_foreign_key`
      raises decides the exception. */
  lemma {:induction false} WrittenJoinsMeaning(g: SchemaGraph, tables: seq<Table>, n: nat)
    requires n < |tables|
    ensures WrittenJoins(g, tables, n).Ok? <==> n == 0 || forall i :: 0 <= i <= n ==> Joinable(g, tables[i])
    ensures WrittenJoins(g, tables, n).Ok? ==>
      && |WrittenJoins(g, tables, n).value| == n
      && forall i :: 0 <= i < n ==> WrittenJoins(g, tables, n).value[i] == WrittenJoinAt(g, tables, i)
    ensures WrittenJoins(g, tables, n).Err? ==>
      exists k :: 0 <= k <= n && FirstBadKey(g, tables, k, WrittenJoins(g, tables, n).error)
  {
    if n > 0 {
      WrittenJoinsMeaning(g, tables, n - 1);
      ReferencedColumnMeaning(g, tables[n - 1]);
      ReferencedColumnMeaning(g, tables[n]);
      var prev := WrittenJoins(g, tables, n - 1);
      if prev.Err? {
        var k :| 0 <= k <= n - 1 && FirstBadKey(g, tables, k, prev.error);
        assert FirstBadKey(g, tables, k, WrittenJoins(g, tables, n).error);
      } else if !Joinable(g, tables[n - 1]) {
        assert FirstBadKey(g, tables, n - 1, WrittenJoins(g, tables, n).error);
      } else if !Joinable(g, tables[n]) {
        assert FirstBadKey(g, tables, n, WrittenJoins(g, tables, n).error);
      }
    }
  }

  /** linear_joins succeeds exactly when the list has at most one table or
      `_foreign_key` succeeds on every table; the query then selects the tables
      and joins each consecutive pair on the columns their keys reference. */
  lemma WrittenQueryMeaning(g: SchemaGraph, tables: seq<Table>)
    ensures WrittenQuery(g, tables).Ok? <==> |tables| <= 1 || forall i :: 0 <= i < |tables| ==> Joinable(g, tables[i])
    ensures WrittenQuery(g, tables).Ok? ==>
      && WrittenQuery(g, tables).value.selected == tables
      && |WrittenQuery(g, tables).value.joins| == (if |tables| == 0 then 0 else |tables| - 1)
      && forall i :: 0 <= i < |tables| - 1 ==> WrittenQuery(g, tables).value.joins[i] == WrittenJoinAt(g, tables, i)
    ensures WrittenQuery(g, tables).Err? ==>
      exists k :: 0 <= k < |tables| && FirstBadKey(g, tables, k, WrittenQuery(g, tables).error)
  {
    if |tables| > 0 {
      WrittenJoinsMeaning(g, tables, |tables| - 1);
    }
  }

  /** Once a prefix of the joins raises, so do all longer prefixes. */
  lemma {:induction false} WrittenJoinsRaiseOnward(g: SchemaGraph, tables: seq<Table>, k: nat, n: nat)
    requires k <= n < |tables|
    requires WrittenJoins(g, tables, k).Err?
    ensures WrittenJoins(g, tables, n) == WrittenJoins(g, tables, k)
    decreases n
  {
    if k < n {
      WrittenJoinsRaiseOnward(g, tables, k, n - 1);
    }
  }

  /** `linear_joins`: one join per consecutive pair of tables. */
  method LinearJoins(g: SchemaGraph, tables: seq<Table>) returns (r: Result<Query>)
    ensures r == WrittenQuery(g, tables)
  {
    if |tables| == 0 {
      return Ok(Query(tables, []));
    }
    var joins: seq<Join> := [];
    for i := 0 to |tables| - 1
      invariant WrittenJoins(g, tables, i) == Ok(joins)
    {
      var left := ForeignKeyColumn(g, tables[i]);
      if left.Err? {
        WrittenJoinsRaiseOnward(g, tables, i + 1, |tables| - 1);
        return Err(left.error);
      }
      var right := ForeignKeyColumn(g, tables[i + 1]);
      if right.Err? {
        WrittenJoinsRaiseOnward(g, tables, i + 1, |tables| - 1);
        return Err(right.error);
      }
      joins := joins + [Join(tables[i], ColumnRef(tables[i], left.value), ColumnRef(tables[i + 1], right.value))];
    }
    return Ok(Query(tables, joins));
  }

  /** Exposure's key references FoilHole.foil_hole_id, yet the written join
      compares Exposure.foil_hole_id with FoilHole.grid_square_id, the column
      that FoilHole's own key references. */
  lemma WrittenJoinMismatchesKey()
    ensures DeclaredKeys(Exposure)[0].targetColumn == "foil_hole_id"
    ensures WrittenQuery(CorrectedSchema, [Exposure, FoilHole, GridSquare]).Ok?
    ensures WrittenQuery(CorrectedSchema, [Exposure, FoilHole, GridSquare]).value.joins[0]
         == Join(Exposure, ColumnRef(Exposure, "foil_hole_id"), ColumnRef(FoilHole, "grid_square_id"))
  {
    var ts := [Exposure, FoilHole, GridSquare];
    CorrectedJoinable(Exposure);
    CorrectedJoinable(FoilHole);
    CorrectedJoinable(GridSquare);
    WrittenQueryMeaning(CorrectedSchema, ts);
  }

  /** With FoilHole named correctly, `_foreign_key` succeeds on every table
      that has a parent. */
  lemma CorrectedJoinable(t: Table)
    requires CorrectedParentOf(t).Some?
    ensures Joinable(CorrectedSchema, t)
  {
    match t
    case GridSquare => CorrectedParentIs(t, Atlas);
    case FoilHole => CorrectedParentIs(t, GridSquare);
    case Exposure => CorrectedParentIs(t, FoilHole);
    case Particle => CorrectedParentIs(t, Exposure);
    case ParticleInfo => CorrectedParentIs(t, Particle);
    case ExposureInfo => CorrectedParentIs(t, Exposure);
  }

  /** A table with a parent is one on which `_foreign_key` succeeds. */
  lemma ParentJoinable(g: SchemaGraph, t: Table)
    requires Parent(g, t).Some?
    ensures Joinable(g, t)
  {
  }

  /** A list on whose tables before the last `_foreign_key` succeeds, and
      whose last table has no key, makes linear_joins raise IndexError. */
  lemma WrittenJoinsRaiseAtKeylessEnd(g: SchemaGraph, tables: seq<Table>)
    requires |tables| >= 2
    requires forall i :: 0 <= i < |tables| - 1 ==> Joinable(g, tables[i])
    requires g.keys(tables[|tables| - 1]) == []
    ensures WrittenQuery(g, tables) == Err(IndexError)
  {
    WrittenQueryMeaning(g, tables);
    assert tables[|tables| - 1] in tables;
    var k :| 0 <= k < |tables| && FirstBadKey(g, tables, k, WrittenQuery(g, tables).error);
    assert k == |tables| - 1;
  }

  /** A chain that ends at a table without keys (every chain up to Atlas) makes
      linear_joins raise IndexError on its last table. */
  lemma WrittenJoinsFailAtRoot(g: SchemaGraph, rank: Table -> nat, start: Table, end: Table)
    requires Ranked(g, rank)
    requires Chain(g, rank, start, end).Ok?
    requires |Chain(g, rank, start, end).value| >= 2
    requires g.keys(end) == []
    ensures WrittenQuery(g, Chain(g, rank, start, end).value) == Err(IndexError)
  {
    ChainIsWalk(g, rank, start, end);
    var ts := Chain(g, rank, start, end).value;
    WalkKeys(g, ts, end);
    WrittenJoinsRaiseAtKeylessEnd(g, ts);
  }

  lemma WrittenGridSquareJoinRaises()
    ensures WrittenQuery(CorrectedSchema, [GridSquare, Atlas]) == Err(IndexError)
  {
    CorrectedJoinable(GridSquare);
    WrittenJoinsRaiseAtKeylessEnd(CorrectedSchema, [GridSquare, Atlas]);
  }

  /** As declared, any join list that starts at Exposure raises
      NoReferencedTableError: `_foreign_key(Exposure)` cannot resolve its key. */
  lemma DeclaredExposureJoinRaises(tables: seq<Table>)
    requires |tables| >= 2 && tables[0] == Exposure
    ensures ReferencedColumn(DeclaredSchema, Exposure) == Err(NoReferencedTableError)
    ensures WrittenQuery(DeclaredSchema, tables) == Err(NoReferencedTableError)
  {
    DeclaredExposureKeyUnresolved();
    assert !Mapped(DeclaredSchema, DeclaredKeys(Exposure)[0]);
    assert WrittenJoins(DeclaredSchema, tables, 1) == Err(NoReferencedTableError);
    WrittenJoinsRaiseOnward(DeclaredSchema, tables, 1, |tables| - 1);
  }

  // ---------------------------------------------------------------------
  // Joins that follow the keys.

  /** The join from `a` to the next table `b` along `a`'s own key: the key
      column of `a` equals the column of `b` that the key references. The key
      is resolved as `_foreign_key` resolves it, and fails the same way. */
  function KeyJoin(g: SchemaGraph, a: Table, b: Table): Result<Join>
  {
    var ks := g.keys(a);
    if exists i :: 0 <= i < |ks| && !Mapped(g, ks[i]) then Err(NoReferencedTableError)
    else if |ks| > 1 then Err(ValueError)
    else if |ks| == 0 then Err(IndexError)
    else Ok(Join(a, ColumnRef(a, ks[0].column), ColumnRef(b, ks[0].targetColumn)))
  }

  /** The key join between tables i and i + 1 when table i has one key. */
  function KeyJoinAt(g: SchemaGraph, tables: seq<Table>, i: nat): Join
    requires i + 1 < |tables| && |g.keys(tables[i])| == 1
  {
    var key := g.keys(tables[i])[0];
    Join(tables[i], ColumnRef(tables[i], key.column), ColumnRef(tables[i + 1], key.targetColumn))
  }

  function KeyJoins(g: SchemaGraph, tables: seq<Table>, n: nat): Result<seq<Join>>
    requires n < |tables|
  {
    if n == 0 then Ok([])
    else
      match KeyJoins(g, tables, n - 1)
      case Err(e) => Err(e)
      case Ok(js) =>
        match KeyJoin(g, tables[n - 1], tables[n])
        case Err(e) => Err(e)
        case Ok(j) => Ok(js + [j])
  }

  /** linear_joins with each join following the key of its left table. */
  function KeyQuery(g: SchemaGraph, tables: seq<Table>): Result<Query>
  {
    if |tables| == 0 then Ok(Query(tables, []))
    else
      match KeyJoins(g, tables, |tables| - 1)
      case Err(e) => Err(e)
      case Ok(js) => Ok(Query(tables, js))
  }

  /** The first n key joins succeed exactly when each of tables 0..n-1 has
      one key, which names a mapped table, and join i equates the key column of table i with the column of
      table i + 1 that the key references. */
  lemma {:induction false} KeyJoinsMeaning(g: SchemaGraph, tables: seq<Table>, n: nat)
    requires n < |tables|
    ensures KeyJoins(g, tables, n).Ok? <==> forall i :: 0 <= i < n ==> Joinable(g, tables[i])
    ensures KeyJoins(g, tables, n).Ok? ==>
      && |KeyJoins(g, tables, n).value| == n
      && forall i :: 0 <= i < n ==>
           KeyJoins(g, tables, n).value[i] == KeyJoinAt(g, tables, i)
  {
    if n > 0 {
      KeyJoinsMeaning(g, tables, n - 1);
    }
  }

  /** Along any chain the key joins succeed, and join i equates the key column
      of table i with the referenced column of table i + 1, which is the table
      the key names. */
  lemma ChainJoinsFollowKeys(g: SchemaGraph, rank: Table -> nat, start: Table, end: Table)
    requires Ranked(g, rank)
    requires Chain(g, rank, start, end).Ok?
    ensures var ts := Chain(g, rank, start, end).value;
      && KeyQuery(g, ts).Ok?
      && KeyQuery(g, ts).value.selected == ts
      && |KeyQuery(g, ts).value.joins| == |ts| - 1
      && forall i :: 0 <= i < |ts| - 1 ==>
           |g.keys(ts[i])| == 1 &&
           var key := g.keys(ts[i])[0];
           var j := KeyQuery(g, ts).value.joins[i];
           && Resolve(g, key) == Ok(ts[i + 1])
           && j.left == ColumnRef(ts[i], key.column)
           && j.right == ColumnRef(ts[i + 1], key.targetColumn)
  {
    ChainIsWalk(g, rank, start, end);
    var ts := Chain(g, rank, start, end).value;
    WalkKeys(g, ts, end);
    KeyJoinsMeaning(g, ts, |ts| - 1);
  }

  /** On the corrected schema, the particle chain joins each table to its parent
      through the parent's primary key. */
  lemma CorrectedParticleJoins()
    ensures KeyQuery(CorrectedSchema, [Particle, Exposure, FoilHole, GridSquare, Atlas])
         == Ok(Query([Particle, Exposure, FoilHole, GridSquare, Atlas],
                     [Join(Particle, ColumnRef(Particle, "exposure_id"), ColumnRef(Exposure, "exposure_id")),
                      Join(Exposure, ColumnRef(Exposure, "foil_hole_id"), ColumnRef(FoilHole, "foil_hole_id")),
                      Join(FoilHole, ColumnRef(FoilHole, "grid_square_id"), ColumnRef(GridSquare, "grid_square_id")),
                      Join(GridSquare, ColumnRef(GridSquare, "atlas_id"), ColumnRef(Atlas, "atlas_id"))]))
  {
    CorrectedJoinable(Particle);
    CorrectedJoinable(Exposure);
    CorrectedJoinable(FoilHole);
    CorrectedJoinable(GridSquare);
    ParticleKeyJoins(CorrectedSchema);
  }

  /** The particle chain's key joins in any schema with the declared keys on
      which `_foreign_key` succeeds along the chain. */
  lemma ParticleKeyJoins(g: SchemaGraph)
    requires forall t :: g.keys(t) == DeclaredKeys(t)
    requires Joinable(g, Particle) && Joinable(g, Exposure) && Joinable(g, FoilHole) && Joinable(g, GridSquare)
    ensures KeyQuery(g, [Particle, Exposure, FoilHole, GridSquare, Atlas])
         == Ok(Query([Particle, Exposure, FoilHole, GridSquare, Atlas],
                     [Join(Particle, ColumnRef(Particle, "exposure_id"), ColumnRef(Exposure, "exposure_id")),
                      Join(Exposure, ColumnRef(Exposure, "foil_hole_id"), ColumnRef(FoilHole, "foil_hole_id")),
                      Join(FoilHole, ColumnRef(FoilHole, "grid_square_id"), ColumnRef(GridSquare, "grid_square_id")),
                      Join(GridSquare, ColumnRef(GridSquare, "atlas_id"), ColumnRef(Atlas, "atlas_id"))]))
  {
    var ts := [Particle, Exposure, FoilHole, GridSquare, Atlas];
    KeyJoinsMeaning(g, ts, 4);
    var js := KeyJoins(g, ts, 4).value;
    assert js == [js[0], js[1], js[2], js[3]];
    assert g.keys(Particle) == DeclaredKeys(Particle) && g.keys(Exposure) == DeclaredKeys(Exposure);
    assert g.keys(FoilHole) == DeclaredKeys(FoilHole) && g.keys(GridSquare) == DeclaredKeys(GridSquare);
  }
}
