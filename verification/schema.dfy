/** The schema graph: the imaging tables, the info tables and the ForeignKey
    columns each of them declares. A foreign key names its target as
    "table.column". SQLAlchemy resolves that name among the mapped tables
    (`fk.column`), and construct.py then looks the table up in its registry of
    table names (`_tables_dict`), so a misspelt table name is a reference that
    does not resolve. */
module Schema {
  import opened Common

  datatype Table =
    | Atlas | Tile | GridSquare | FoilHole | Exposure | Particle
    | ParticleInfo | ExposureInfo
    | Project | ParticleSet | ParticleSetInfo | ParticleSetLinker

  /** `Column(ForeignKey("<targetTable>.<targetColumn>"))` declared as `column`. */
  datatype ForeignKey = ForeignKey(column: string, targetTable: string, targetColumn: string)

  /** A declared schema: the registered tables (`_tables`) in registration
      order, the tables mapped on the declarative base, the `__tablename__` of
      each table and its foreign keys in column order. */
  datatype SchemaGraph = SchemaGraph(
    tables: seq<Table>,
    mapped: seq<Table>,
    tableName: Table -> string,
    keys: Table -> seq<ForeignKey>)

  /** `_tables_dict[name]`: the registered table with that `__tablename__`
      (a later registration wins, as in a dict comprehension). */
  function TableNamed(g: SchemaGraph, name: string): (r: Option<Table>)
    ensures r.Some? ==> r.value in g.tables && g.tableName(r.value) == name
    ensures r.None? <==> forall t :: t in g.tables ==> g.tableName(t) != name
  {
    NamedIn(g.tables, g.tableName, name)
  }

  function NamedIn(ts: seq<Table>, tableName: Table -> string, name: string): (r: Option<Table>)
    ensures r.Some? ==> r.value in ts && tableName(r.value) == name
    ensures r.None? <==> forall t :: t in ts ==> tableName(t) != name
  {
    if |ts| == 0 then None
    else if tableName(ts[|ts| - 1]) == name then Some(ts[|ts| - 1])
    else
      var r := NamedIn(ts[..|ts| - 1], tableName, name);
      assert forall t :: t in ts ==> t in ts[..|ts| - 1] || t == ts[|ts| - 1];
      r
  }

  /** Some mapped table carries the name the key refers to. */
  predicate Mapped(g: SchemaGraph, k: ForeignKey)
  {
    exists t :: t in g.mapped && g.tableName(t) == k.targetTable
  }

  /** `_tables_dict[fk.column.table.name]`: `fk.column` finds the mapped table
      the key names or raises NoReferencedTableError; the registry lookup of
      that table's name raises KeyError when it is not registered. */
  function Resolve(g: SchemaGraph, k: ForeignKey): Result<Table>
  {
    match NamedIn(g.mapped, g.tableName, k.targetTable)
    case None => Err(NoReferencedTableError)
    case Some(m) =>
      match TableNamed(g, g.tableName(m))
      case None => Err(KeyError)
      case Some(t) => Ok(t)
  }

  /** A key resolves to a registered table of the name it refers to; it
      raises NoReferencedTableError exactly when no mapped table has that
      name, and KeyError exactly when one does but no registered table has. */
  lemma ResolveMeaning(g: SchemaGraph, k: ForeignKey)
    ensures Resolve(g, k) == Err(NoReferencedTableError) <==> !Mapped(g, k)
    ensures Resolve(g, k) == Err(KeyError) <==>
      Mapped(g, k) && forall t :: t in g.tables ==> g.tableName(t) != k.targetTable
    ensures Resolve(g, k).Err? ==> Resolve(g, k).error == NoReferencedTableError || Resolve(g, k).error == KeyError
    ensures Resolve(g, k).Ok? ==> Resolve(g, k).value in g.tables && g.tableName(Resolve(g, k).value) == k.targetTable
  {
  }

  /** The parent of a table: the table its one foreign key points to, when it
      declares exactly one and the key resolves. */
  function Parent(g: SchemaGraph, t: Table): Option<Table>
  {
    if |g.keys(t)| == 1 && Resolve(g, g.keys(t)[0]).Ok? then Some(Resolve(g, g.keys(t)[0]).value) else None
  }

  /** `rank` strictly decreases from every table to its parent: following
      parents cannot cycle. */
  ghost predicate Ranked(g: SchemaGraph, rank: Table -> nat)
  {
    forall t :: Parent(g, t).Some? ==> rank(Parent(g, t).value) < rank(t)
  }

  // ---------------------------------------------------------------------
  // The schema of src/cryotrace/data_model/__init__.py, as written and corrected.

  const AtlasKey := ForeignKey("atlas_id", "Atlas", "atlas_id")
  const GridSquareKey := ForeignKey("grid_square_id", "GridSquare", "grid_square_id")
  const FoilHoleKey := ForeignKey("foil_hole_id", "FoilHole", "foil_hole_id")
  const ExposureKey := ForeignKey("exposure_id", "Exposure", "exposure_id")
  const ParticleKey := ForeignKey("particle_id", "Particle", "particle_id")

  /** The foreign keys declared in src/cryotrace/data_model/__init__.py. */
  function DeclaredKeys(t: Table): seq<ForeignKey>
  {
    match t
    case GridSquare => [AtlasKey]
    case FoilHole => [GridSquareKey]
    case Exposure => [FoilHoleKey]
    case Particle => [ExposureKey]
    case ParticleInfo => [ParticleKey]
    case ExposureInfo => [ExposureKey]
    case _ => []
  }

  /** The table names of the full schema; FoilHole is spelt as its class. */
  function ClassName(t: Table): string
  {
    match t
    case Atlas => "Atlas"
    case Tile => "Tile"
    case GridSquare => "GridSquare"
    case FoilHole => "FoilHole"
    case Exposure => "Exposure"
    case Particle => "Particle"
    case ParticleInfo => "ParticleInfo"
    case ExposureInfo => "ExposureInfo"
    case Project => "Project"
    case ParticleSet => "ParticleSet"
    case ParticleSetInfo => "ParticleSetInfo"
    case ParticleSetLinker => "ParticleSetLinker"
  }

  /** The `__tablename__` values as written: FoilHole registers as "FoliHole". */
  function DeclaredName(t: Table): string
  {
    if t == FoilHole then "FoliHole" else ClassName(t)
  }

  /** `_tables`, which construct.py imports but __init__.py does not define:
      taken to be the seven tables declared there, in declaration order, all
      of them mapped. */
  const DeclaredTables := [Atlas, GridSquare, FoilHole, Exposure, Particle, ParticleInfo, ExposureInfo]

  /** The schema exactly as declared. */
  const DeclaredSchema := SchemaGraph(DeclaredTables, DeclaredTables, DeclaredName, DeclaredKeys)

  /** The same schema with FoilHole registered under the name its referrers use. */
  const CorrectedSchema := SchemaGraph(DeclaredTables, DeclaredTables, ClassName, DeclaredKeys)

  // ---------------------------------------------------------------------
  // The fuller schema the tests and the queries of extract.py rely on.

  /** Foreign keys of the full schema: Tile sits between GridSquare and Atlas,
      projects hang off the atlas, particle sets off the project, and the
      linker references both a particle and a set. */
  function FullKeys(t: Table): seq<ForeignKey>
  {
    match t
    case Atlas => []
    case Tile => [ForeignKey("atlas_id", "Atlas", "atlas_id")]
    case GridSquare => [ForeignKey("tile_id", "Tile", "tile_id")]
    case FoilHole => [ForeignKey("grid_square_name", "GridSquare", "grid_square_name")]
    case Exposure => [ForeignKey("foil_hole_name", "FoilHole", "foil_hole_name")]
    case Particle => [ForeignKey("exposure_name", "Exposure", "exposure_name")]
    case ParticleInfo => [ForeignKey("particle_id", "Particle", "particle_id")]
    case ExposureInfo => [ForeignKey("exposure_name", "Exposure", "exposure_name")]
    case Project => [ForeignKey("atlas_id", "Atlas", "atlas_id")]
    case ParticleSet => [ForeignKey("project_name", "Project", "project_name")]
    case ParticleSetInfo => [ForeignKey("set_name", "ParticleSet", "identifier")]
    case ParticleSetLinker =>
      [ForeignKey("particle_id", "Particle", "particle_id"),
       ForeignKey("set_name", "ParticleSet", "identifier")]
  }

  const FullTables := [Atlas, Tile, GridSquare, FoilHole, Exposure, Particle, ParticleInfo,
                       ExposureInfo, Project, ParticleSet, ParticleSetInfo, ParticleSetLinker]

  const FullSchema := SchemaGraph(FullTables, FullTables, ClassName, FullKeys)

  /** Depth in the hierarchy: a rank for every schema above. */
  function Level(t: Table): nat
  {
    match t
    case Atlas => 0
    case Tile => 1
    case Project => 1
    case GridSquare => 2
    case ParticleSet => 2
    case FoilHole => 3
    case ParticleSetInfo => 3
    case Exposure => 4
    case Particle => 5
    case ExposureInfo => 5
    case ParticleInfo => 6
    case ParticleSetLinker => 6
  }

  /** No table registers as "FoilHole". */
  lemma DeclaredNameNot(t: Table)
    ensures DeclaredName(t) != "FoilHole"
  {
    if t == FoilHole {
      assert DeclaredName(t)[2] != "FoilHole"[2];
    } else {
      ClassNameNot(t);
    }
  }

  /** Only FoilHole's class is named "FoilHole". */
  lemma ClassNameNot(t: Table)
    requires t != FoilHole
    ensures ClassName(t) != "FoilHole"
  {
    if ClassName(t) == "FoilHole" {
      ClassNameInjective(t, FoilHole);
    }
  }

  lemma ClassNameInjective(a: Table, b: Table)
    requires ClassName(a) == ClassName(b)
    ensures a == b
  {
  }

  /** No two mapped tables share a `__tablename__` (SQLAlchemy refuses a
      second table of the same name), and every registered table is mapped. */
  ghost predicate ConsistentNames(g: SchemaGraph)
  {
    && (forall a, b :: a in g.mapped && b in g.mapped && g.tableName(a) == g.tableName(b) ==> a == b)
    && (forall t :: t in g.tables ==> t in g.mapped)
  }

  /** A registered table is found under its own name, both among the mapped
      tables and in the registry. */
  lemma NamedRegistered(g: SchemaGraph, t: Table)
    requires ConsistentNames(g)
    requires t in g.tables
    ensures NamedIn(g.mapped, g.tableName, g.tableName(t)) == Some(t)
    ensures TableNamed(g, g.tableName(t)) == Some(t)
  {
  }

  /** A key naming a registered table resolves to it. */
  lemma ResolvesTo(g: SchemaGraph, k: ForeignKey, p: Table)
    requires ConsistentNames(g)
    requires p in g.tables && k.targetTable == g.tableName(p)
    ensures Resolve(g, k) == Ok(p)
  {
    NamedRegistered(g, p);
  }

  /** A table whose one key names a registered table has that table as parent. */
  lemma ParentIs(g: SchemaGraph, t: Table, p: Table)
    requires ConsistentNames(g)
    requires p in g.tables
    requires |g.keys(t)| == 1 && g.keys(t)[0].targetTable == g.tableName(p)
    ensures Parent(g, t) == Some(p)
  {
    ResolvesTo(g, g.keys(t)[0], p);
  }

  lemma CorrectedParentIs(t: Table, p: Table)
    requires p in DeclaredTables
    requires |DeclaredKeys(t)| == 1 && DeclaredKeys(t)[0].targetTable == ClassName(p)
    ensures Parent(CorrectedSchema, t) == Some(p)
  {
    CorrectedConsistentNames();
    ParentIs(CorrectedSchema, t, p);
  }

  lemma FullParentIs(t: Table, p: Table)
    requires |FullKeys(t)| == 1 && FullKeys(t)[0].targetTable == ClassName(p)
    ensures Parent(FullSchema, t) == Some(p)
  {
    FullConsistentNames();
    assert p in FullTables;
    ParentIs(FullSchema, t, p);
  }

  lemma CorrectedConsistentNames()
    ensures ConsistentNames(CorrectedSchema)
  {
    forall a, b | ClassName(a) == ClassName(b) ensures a == b {
      ClassNameInjective(a, b);
    }
  }

  lemma FullConsistentNames()
    ensures ConsistentNames(FullSchema)
  {
    forall a, b | ClassName(a) == ClassName(b) ensures a == b {
      ClassNameInjective(a, b);
    }
  }

  /** As written, Exposure's key names "FoilHole", which is no mapped table:
      the reference does not resolve, and Exposure has no parent. */
  lemma DeclaredExposureKeyUnresolved()
    ensures !Mapped(DeclaredSchema, FoilHoleKey)
    ensures Resolve(DeclaredSchema, FoilHoleKey) == Err(NoReferencedTableError)
    ensures Parent(DeclaredSchema, Exposure) == None
  {
    forall t | t in DeclaredTables ensures DeclaredName(t) != "FoilHole" {
      DeclaredNameNot(t);
    }
    ResolveMeaning(DeclaredSchema, FoilHoleKey);
  }

  // ---------------------------------------------------------------------
  // Parent relations.

  /** `parentOf` is the parent relation of `g`. */
  ghost predicate HasParents(g: SchemaGraph, parentOf: Table -> Option<Table>)
  {
    forall t :: Parent(g, t) == parentOf(t)
  }

  /** The parents in the corrected schema: each imaging table points to the
      one above it, each info table to the row it describes. */
  function CorrectedParentOf(t: Table): Option<Table>
  {
    match t
    case GridSquare => Some(Atlas)
    case FoilHole => Some(GridSquare)
    case Exposure => Some(FoilHole)
    case Particle => Some(Exposure)
    case ParticleInfo => Some(Particle)
    case ExposureInfo => Some(Exposure)
    case _ => None
  }

  /** As declared, Exposure has no parent: its key names an unregistered table. */
  function DeclaredParentOf(t: Table): Option<Table>
  {
    if t == Exposure then None else CorrectedParentOf(t)
  }

  /** The parents in the full schema; ParticleSetLinker has two keys, hence none. */
  function FullParentOf(t: Table): Option<Table>
  {
    match t
    case Tile => Some(Atlas)
    case GridSquare => Some(Tile)
    case FoilHole => Some(GridSquare)
    case Exposure => Some(FoilHole)
    case Particle => Some(Exposure)
    case ParticleInfo => Some(Particle)
    case ExposureInfo => Some(Exposure)
    case Project => Some(Atlas)
    case ParticleSet => Some(Project)
    case ParticleSetInfo => Some(ParticleSet)
    case _ => None
  }

  lemma CorrectedParents()
    ensures HasParents(CorrectedSchema, CorrectedParentOf)
  {
    forall t ensures Parent(CorrectedSchema, t) == CorrectedParentOf(t) {
      match t
      case GridSquare => CorrectedParentIs(t, Atlas);
      case FoilHole => CorrectedParentIs(t, GridSquare);
      case Exposure => CorrectedParentIs(t, FoilHole);
      case Particle => CorrectedParentIs(t, Exposure);
      case ParticleInfo => CorrectedParentIs(t, Particle);
      case ExposureInfo => CorrectedParentIs(t, Exposure);
      case _ =>
    }
  }

  lemma DeclaredConsistentNames()
    ensures ConsistentNames(DeclaredSchema)
  {
    forall a, b | DeclaredName(a) == DeclaredName(b) ensures a == b {
      if a != FoilHole && b != FoilHole {
        ClassNameInjective(a, b);
      }
    }
  }

  lemma DeclaredParentIs(t: Table, p: Table)
    requires p in DeclaredTables
    requires |DeclaredKeys(t)| == 1 && DeclaredKeys(t)[0].targetTable == DeclaredName(p)
    ensures Parent(DeclaredSchema, t) == Some(p)
  {
    DeclaredConsistentNames();
    ParentIs(DeclaredSchema, t, p);
  }

  lemma DeclaredParents()
    ensures HasParents(DeclaredSchema, DeclaredParentOf)
  {
    forall t ensures Parent(DeclaredSchema, t) == DeclaredParentOf(t) {
      DeclaredParentOfTable(t);
    }
  }

  lemma DeclaredParentOfTable(t: Table)
    ensures Parent(DeclaredSchema, t) == DeclaredParentOf(t)
  {
    match t
    case GridSquare => DeclaredParentIs(t, Atlas);
    case FoilHole => DeclaredParentIs(t, GridSquare);
    case Exposure => DeclaredExposureKeyUnresolved();
    case Particle => DeclaredParentIs(t, Exposure);
    case ParticleInfo => DeclaredParentIs(t, Particle);
    case ExposureInfo => DeclaredParentIs(t, Exposure);
    case _ => assert |DeclaredKeys(t)| == 0;
  }

  lemma FullParents()
    ensures HasParents(FullSchema, FullParentOf)
  {
    forall t ensures Parent(FullSchema, t) == FullParentOf(t) {
      if Level(t) <= 3 {
        FullParentsUpper(t);
      } else {
        FullParentsLower(t);
      }
    }
  }

  lemma FullParentsUpper(t: Table)
    requires Level(t) <= 3
    ensures Parent(FullSchema, t) == FullParentOf(t)
  {
    match t
    case Tile => FullParentIs(t, Atlas);
    case GridSquare => FullParentIs(t, Tile);
    case FoilHole => FullParentIs(t, GridSquare);
    case Project => FullParentIs(t, Atlas);
    case ParticleSet => FullParentIs(t, Project);
    case ParticleSetInfo => FullParentIs(t, ParticleSet);
    case _ =>
  }

  lemma FullParentsLower(t: Table)
    requires Level(t) > 3
    ensures Parent(FullSchema, t) == FullParentOf(t)
  {
    match t
    case Exposure => FullParentIs(t, FoilHole);
    case Particle => FullParentIs(t, Exposure);
    case ParticleInfo => FullParentIs(t, Particle);
    case ExposureInfo => FullParentIs(t, Exposure);
    case _ =>
  }

  /** A schema whose parent relation lowers `rank` is ranked by it. */
  lemma RankedByParents(g: SchemaGraph, parentOf: Table -> Option<Table>, rank: Table -> nat)
    requires HasParents(g, parentOf)
    requires forall t :: parentOf(t).Some? ==> rank(parentOf(t).value) < rank(t)
    ensures Ranked(g, rank)
  {
  }

  /** Every parent sits one level or more above its child. */
  lemma ParentsLowerLevel()
    ensures forall t :: CorrectedParentOf(t).Some? ==> Level(CorrectedParentOf(t).value) < Level(t)
    ensures forall t :: DeclaredParentOf(t).Some? ==> Level(DeclaredParentOf(t).value) < Level(t)
    ensures forall t :: FullParentOf(t).Some? ==> Level(FullParentOf(t).value) < Level(t)
  {
  }

  /** Level ranks the corrected, the declared and the full schema: following
      parents from any table never comes back to it. */
  lemma LevelRanksCorrected()
    ensures Ranked(CorrectedSchema, Level)
  {
    CorrectedParents();
    ParentsLowerLevel();
    RankedByParents(CorrectedSchema, CorrectedParentOf, Level);
  }

  lemma LevelRanksDeclared()
    ensures Ranked(DeclaredSchema, Level)
  {
    DeclaredParents();
    ParentsLowerLevel();
    RankedByParents(DeclaredSchema, DeclaredParentOf, Level);
  }

  lemma LevelRanksFull()
    ensures Ranked(FullSchema, Level)
  {
    FullParents();
    ParentsLowerLevel();
    RankedByParents(FullSchema, FullParentOf, Level);
  }

  // ---------------------------------------------------------------------
  // Info rows.

  /** A column of an info table as declared: its name and whether it is
      declared with `primary_key=True`. */
  datatype ColumnDecl = ColumnDecl(name: string, primaryKey: bool)

  /** The columns of ParticleInfo (owner column "particle_id") and of
      ExposureInfo (owner column "exposure_id"), in declaration order: every
      one of them is declared a primary-key column. */
  function InfoColumns(owner: string): seq<ColumnDecl>
  {
    [ColumnDecl("source", true), ColumnDecl("key", true), ColumnDecl("value", true), ColumnDecl(owner, true)]
  }

  /** The names of the primary-key columns, in declaration order. */
  function KeyColumns(cols: seq<ColumnDecl>): (ks: seq<string>)
    ensures |ks| <= |cols|
    ensures forall n :: n in ks <==> exists i :: 0 <= i < |cols| && cols[i].primaryKey && cols[i].name == n
  {
    if |cols| == 0 then []
    else
      var front := KeyColumns(cols[..|cols| - 1]);
      var last := cols[|cols| - 1];
      assert forall i :: 0 <= i < |cols| - 1 ==> cols[..|cols| - 1][i] == cols[i];
      if last.primaryKey then front + [last.name] else front
  }

  /** A ParticleInfo or ExposureInfo row: its source, key, value and the id of
      the particle or exposure it describes. */
  datatype InfoRow = InfoRow(source: string, key: string, value: real, owner: int)

  /** A value stored in a column. */
  datatype FieldValue = StringField(text: string) | RealField(number: real) | IdField(id: int)

  /** The value of row `r` in the column `name`; `owner` names the owner column. */
  function Field(r: InfoRow, owner: string, name: string): FieldValue
  {
    if name == "source" then StringField(r.source)
    else if name == "key" then StringField(r.key)
    else if name == "value" then RealField(r.value)
    else IdField(r.owner)
  }

  /** The primary key of a row of a table with columns `cols`: its values in
      the primary-key columns, in declaration order. */
  function PrimaryKey(r: InfoRow, cols: seq<ColumnDecl>, owner: string): seq<FieldValue>
  {
    var ks := KeyColumns(cols);
    seq(|ks|, i requires 0 <= i < |ks| => Field(r, owner, ks[i]))
  }

  /** The primary key of an info table is all four of its columns. */
  lemma {:induction false} InfoKeyColumns(owner: string)
    ensures KeyColumns(InfoColumns(owner)) == ["source", "key", "value", owner]
  {
    var cols := InfoColumns(owner);
    assert cols[..1][..0] == [] && cols[..2][..1] == cols[..1];
    assert cols[..3][..2] == cols[..2] && cols[..4] == cols;
    assert KeyColumns(cols[..1]) == ["source"];
    assert KeyColumns(cols[..2]) == ["source", "key"];
    assert KeyColumns(cols[..3]) == ["source", "key", "value"];
  }

  /** Two rows of ParticleInfo, or of ExposureInfo, share a primary key exactly
      when they are the same row: no two stored infos can agree on the
      source, key, value and owner. */
  lemma InfoKeyIdentifiesRow(a: InfoRow, b: InfoRow, owner: string)
    requires owner == "particle_id" || owner == "exposure_id"
    ensures PrimaryKey(a, InfoColumns(owner), owner) == PrimaryKey(b, InfoColumns(owner), owner) <==> a == b
  {
    InfoKeyColumns(owner);
    var ka := PrimaryKey(a, InfoColumns(owner), owner);
    var kb := PrimaryKey(b, InfoColumns(owner), owner);
    assert ka == [StringField(a.source), StringField(a.key), RealField(a.value), IdField(a.owner)];
    assert kb == [StringField(b.source), StringField(b.key), RealField(b.value), IdField(b.owner)];
    if ka == kb {
      assert ka[0] == kb[0] && ka[1] == kb[1] && ka[2] == kb[2] && ka[3] == kb[3];
    }
  }
}
