# A verified model of the cryotrace / smartem data core

This project models the data core of python-smartem, a tool that records cryo-EM sessions in a relational database. It covers:

- the SQLAlchemy schema: tables, their registered names, the mapped tables that foreign keys resolve against, their foreign keys and primary keys;
- the schema walkers in `construct.py`: the next table along a foreign key, the chain of tables from one table up to another, and the chain of joins along such a chain;
- the reshaping of joined query rows into per-key, per-grid-square series in `structure.py`, over arrays;
- the in-memory side of the statistics queries of `extract.py`:
  - per-foil-hole and per-grid-square series;
  - particle averages;
  - the particle lookup;
  - the atlas and tile lookups of the `Extractor`, a class whose atlas id and stored batches change in place;
- the STAR-file loaders in `parsing/star.py`: columns, column data, exposure info, particle info and particle sets, each as the batches it stores through the `Extractor` and the exception it ends with;
- the conversions between stage and pixel coordinates in `stage_model.py`;
- from the PyTorch dataset in `torch.py`: the image label, the length, the index guard of `__getitem__` and the test that drops foil holes outside a sampled window.

Python exceptions are values: `Result<T> = Ok(value) | Err(error)` with `PyError = KeyError | IndexError | ValueError | ZeroDivisionError | NoReferencedTableError` (the last is SQLAlchemy's, raised when a foreign key names a table that is not mapped), and a loader's outcome is `Done` or `Raised(error)`. Every loop that the model renders imperatively is a `method` whose `for` or `while` loop is proved equal to a recursive specification function over the prefix it has processed. Comprehensions that only build a value, such as the label conditions of `compute_label`, are functions (`Torch.Conditions`). The properties are proved as lemmas about those functions:

- what each result contains, both directions;
- exactly when and with which exception an operation fails;
- the round trip between pixels and stage positions;
- the chains of the tests.

Modules: `Common` (options, results, dictionaries as ordered pair lists), `Schema`, `Construct`, `Structure`, `Extract`, `Star`, `StarInsert` (`insert_exposure_data`, `insert_particle_data`), `StarSet` (`insert_particle_set`), `StageModel`, `Torch`.

## Model

| member | source | states |
|---|---|---|
| Common.Lookup | src/cryotrace/parsing/star.py:57 | `data[k]` on a dict modelled as an ordered pair list: None exactly when no pair has key k, otherwise the value of a pair with that key |
| Common.LookupAt | src/cryotrace/parsing/star.py:57 | with distinct keys, looking up the key of pair i yields the value of pair i |
| Common.At | src/cryotrace/parsing/star.py:143 | Python list indexing: Ok exactly below the length, with the element; IndexError otherwise |
| Common.KeysOf | src/cryotrace/parsing/star.py:31 | `d.keys()`: one key per pair, in order |
| Schema.TableNamed | src/cryotrace/data_model/construct.py:7 | `_tables_dict[name]`: a found table is registered under that name; None exactly when no registered table has that name |
| Schema.NamedIn | src/cryotrace/data_model/construct.py:7 | the same search over a list of tables |
| Schema.ResolveMeaning | src/cryotrace/data_model/construct.py:13-22 | `_tables_dict[fk.column.table.name]`: NoReferencedTableError exactly when no mapped table has the name the key refers to; KeyError exactly when a mapped one has it but no registered one does; otherwise a registered table of that name |
| Schema.DeclaredExposureKeyUnresolved | src/cryotrace/data_model/__init__.py:74 | with FoilHole mapped as "FoliHole", no mapped table is named "FoilHole", so Exposure's key raises NoReferencedTableError and Exposure has no parent |
| Schema.ClassNameInjective | src/cryotrace/data_model/__init__.py:48-176 | distinct tables have distinct class names |
| Schema.DeclaredConsistentNames | src/cryotrace/data_model/__init__.py:48-176 | the declared table names are pairwise distinct, the misspelt one included, and every registered table is mapped |
| Schema.CorrectedConsistentNames | src/cryotrace/data_model/__init__.py:48-176 | the table names are distinct once FoilHole is named after its class, and every registered table is mapped |
| Schema.FullConsistentNames | tests/data_model/test_construct.py:20-47 | the table names of the full schema of the tests are distinct, and every registered table is mapped |
| Schema.NamedRegistered | src/cryotrace/data_model/construct.py:7 | with distinct names and every registered table mapped, a registered table is found under its own name among the mapped tables and in the registry |
| Schema.ResolvesTo | src/cryotrace/data_model/construct.py:22 | a key naming a registered table resolves to that table |
| Schema.ParentIs | src/cryotrace/data_model/construct.py:19-29 | a table whose only key names a registered table has that table as its parent |
| Schema.CorrectedParentIs | src/cryotrace/data_model/__init__.py:59-122 | the same step on the schema with FoilHole named correctly |
| Schema.DeclaredParentIs | src/cryotrace/data_model/__init__.py:59-122 | the same step on the schema as declared |
| Schema.FullParentIs | tests/data_model/test_construct.py:20-47 | the same step on the full schema of the tests |
| Schema.CorrectedParents | src/cryotrace/data_model/__init__.py:59-122 | the parents, once FoilHole is named correctly: GridSquare→Atlas, FoilHole→GridSquare, Exposure→FoilHole, Particle→Exposure, ParticleInfo→Particle, ExposureInfo→Exposure; Atlas has none |
| Schema.DeclaredParents | src/cryotrace/data_model/__init__.py:59-122 | the parents as declared: the same, except that Exposure has none |
| Schema.FullParents | tests/data_model/test_construct.py:20-47 | the parent of every table of the full schema, including Tile, Project, ParticleSet and ParticleSetInfo; ParticleSetLinker, with two keys, has none |
| Schema.FullParentsUpper | tests/data_model/test_construct.py:20-47 | the parent of each upper table of the full schema |
| Schema.FullParentsLower | tests/data_model/test_construct.py:20-47 | the parent of each lower table of the full schema |
| Schema.RankedByParents | src/cryotrace/data_model/construct.py:32-41 | a rank that falls from every table to its parent makes the parent relation acyclic |
| Schema.ParentsLowerLevel | src/cryotrace/data_model/construct.py:32-41 | in all three schemas, a parent sits at a strictly lower level than its child |
| Schema.LevelRanksCorrected | src/cryotrace/data_model/construct.py:32-41 | the corrected schema has no cycle of parents |
| Schema.LevelRanksDeclared | src/cryotrace/data_model/construct.py:32-41 | the declared schema has no cycle of parents |
| Schema.LevelRanksFull | src/cryotrace/data_model/construct.py:32-41 | the full schema has no cycle of parents |
| Schema.KeyColumns | src/cryotrace/data_model/__init__.py:125-176 | the primary-key columns of a table: a name is among them exactly when some column of that name is declared with `primary_key=True`; no more of them than columns |
| Schema.InfoKeyColumns | src/cryotrace/data_model/__init__.py:125-176 | the primary key of ParticleInfo and of ExposureInfo is, in order, source, key, value and the owner column |
| Schema.InfoKeyIdentifiesRow | src/cryotrace/data_model/__init__.py:125-176 | two ParticleInfo rows, or two ExposureInfo rows, have the same primary key exactly when they are the same row |
| Construct.ForeignKeyColumn | src/cryotrace/data_model/construct.py:10-16 | the loop over the columns' keys computes `_foreign_key`: NoReferencedTableError exactly when some key names no mapped table, the referenced column of a one-key table whose key is mapped, ValueError exactly when there are several keys, all mapped |
| Construct.ReferencedColumnMeaning | src/cryotrace/data_model/construct.py:10-16 | `_foreign_key`: NoReferencedTableError exactly when some key names no mapped table; the column exactly when there is one key and its table is mapped, and it is the column that key references; ValueError exactly when there are several keys, all mapped; IndexError exactly when there are none |
| Construct.Targets | src/cryotrace/data_model/construct.py:21-22 | the table of every key, in order, exactly when every key resolves; otherwise the exception of the first key that does not resolve, which is NoReferencedTableError or KeyError |
| Construct.FirstUnresolvedExtends | src/cryotrace/data_model/construct.py:21-22 | the first key of a prefix that does not resolve is also the first of the whole list |
| Construct.FirstUnresolvedAtEnd | src/cryotrace/data_model/construct.py:21-22 | a last key that does not resolve, after all others do, is the first that does not |
| Construct.FirstUnresolvedUnique | src/cryotrace/data_model/construct.py:21-22 | the first key that does not resolve, and its exception, are unique |
| Construct.NextTable | src/cryotrace/data_model/construct.py:19-29 | `_analyse_table`: None exactly for a table without keys, and the parent when there is one |
| Construct.NextTableRaises | src/cryotrace/data_model/construct.py:19-29 | NoReferencedTableError exactly when the first key that does not resolve names no mapped table; KeyError exactly when it names a mapped but unregistered table; ValueError exactly when all keys resolve and there are several |
| Construct.AnalyseTable | src/cryotrace/data_model/construct.py:19-29 | the loop over the columns' keys computes NextTable |
| Construct.TargetsStep | src/cryotrace/data_model/construct.py:21-22 | one more key either raises its own exception for the whole key list or extends the resolved tables by its table |
| Construct.Extend | src/cryotrace/data_model/construct.py:33-40 | prepending tables to a chain keeps its exception and otherwise concatenates |
| Construct.Chain | src/cryotrace/data_model/construct.py:32-41 | `table_chain(start, end)`: `[start]` when start is end; otherwise a list that begins at start; raises only KeyError, ValueError or NoReferencedTableError |
| Construct.DescendingCons | src/cryotrace/data_model/construct.py:32-41 | a table ranked above a descending chain extends it |
| Construct.DescendingLength | src/cryotrace/data_model/construct.py:32-41 | a descending chain is at most one longer than its start table's rank, so the loop ends |
| Construct.WalkCons | src/cryotrace/data_model/construct.py:35-40 | a table whose parent starts a walk extends the walk |
| Construct.ChainStep | src/cryotrace/data_model/construct.py:35-40 | one iteration: from a table other than end that has a parent, the chain is the table followed by the parent's chain |
| Construct.ChainPrepend | src/cryotrace/data_model/construct.py:35-40 | from a table other than end whose parent is p, the chain is the table followed by the chain from p |
| Construct.ChainAtKeyless | src/cryotrace/data_model/construct.py:37-38 | the chain from a table without keys is that table alone |
| Construct.ChainIsWalk | src/cryotrace/data_model/construct.py:32-41 | every chain is a walk along parents that stops at end or at a table without a parent, with strictly falling ranks |
| Construct.ChainVisitsOnce | src/cryotrace/data_model/construct.py:32-41 | no table occurs twice in a chain |
| Construct.WalkIsChain | src/cryotrace/data_model/construct.py:32-41 | conversely, every such walk is the chain from its first table: the chain is the unique walk |
| Construct.WalkTail | src/cryotrace/data_model/construct.py:35-40 | the tail of a walk is a walk, and its head's parent is the second table |
| Construct.WalkKeys | src/cryotrace/data_model/construct.py:35-40 | every table of a walk but the last has exactly one key, which names a mapped table and resolves to the next table |
| Construct.ExtendExtend | src/cryotrace/data_model/construct.py:33-40 | prepending twice is prepending the concatenation |
| Construct.SeveralKeysRaise | src/cryotrace/data_model/construct.py:23-26 | a start table other than end with several resolvable keys makes the chain raise ValueError |
| Construct.TableChain | src/cryotrace/data_model/construct.py:32-41 | the while loop computes Chain |
| Construct.ExposureInfoChainWithFullParents | tests/data_model/test_construct.py:23-24 | in any schema with the full parents, ExposureInfo's chain to Atlas is ExposureInfo, Exposure, FoilHole, GridSquare, Tile, Atlas |
| Construct.ParticleInfoChainWithFullParents | tests/data_model/test_construct.py:31-40 | in such a schema, ParticleInfo's chain runs through Particle, Exposure, FoilHole, GridSquare and Tile to Atlas |
| Construct.ParticleSetInfoChainWithFullParents | tests/data_model/test_construct.py:27-28 | in such a schema, ParticleSetInfo's chain is ParticleSetInfo, ParticleSet, Project, Atlas |
| Construct.FullGridSquareChain | tests/data_model/test_construct.py:23-24 | with the full parents, GridSquare's chain to Atlas passes through Tile |
| Construct.FullExposureChain | tests/data_model/test_construct.py:23-24 | with the full parents, Exposure's chain to Atlas is Exposure, FoilHole, GridSquare, Tile, Atlas |
| Construct.FullParticleChain | tests/data_model/test_construct.py:31-40 | with the full parents, Particle's chain to Atlas is Particle followed by Exposure's chain |
| Construct.FullRanked | src/cryotrace/data_model/construct.py:32-41 | the full parent relation is ranked by level, so the chain terminates |
| Construct.FullInfoChains | tests/data_model/test_construct.py:20-40 | the three chains of the test on the full schema |
| Construct.LinkerChainRaisesWith | tests/data_model/test_construct.py:42-47 | a link table with the full schema's two keys, in a schema that registers Particle and ParticleSet, makes the chain raise ValueError |
| Construct.FullLinkerChainRaises | tests/data_model/test_construct.py:42-47 | ParticleSetLinker's chain to Atlas raises ValueError |
| Construct.ChainsWithCorrectedParents | src/cryotrace/data_model/construct.py:32-41 | with the corrected parents, Particle's chain to Atlas runs through Exposure, FoilHole and GridSquare; a chain that meets a keyless table before end stops there |
| Construct.CorrectedFoilHoleToAtlas | src/cryotrace/data_model/construct.py:32-41 | with the corrected parents, FoilHole's chain to Atlas is FoilHole, GridSquare, Atlas |
| Construct.CorrectedChains | src/cryotrace/data_model/construct.py:32-41 | the same two chains on the corrected schema |
| Construct.DeclaredExposureChainRaises | src/cryotrace/data_model/__init__.py:97 | as declared, the chain from Exposure raises NoReferencedTableError: its key names "FoilHole", and no mapped table has that name |
| Construct.WrittenJoinsMeaning | src/cryotrace/data_model/construct.py:44-52 | the first n joins succeed exactly when `_foreign_key` succeeds on tables 0..n; join i then equates the columns that the keys of tables i and i+1 reference; otherwise the first table on which `_foreign_key` raises decides the exception |
| Construct.WrittenQueryMeaning | src/cryotrace/data_model/construct.py:44-52 | `linear_joins` succeeds exactly when the list has at most one table or `_foreign_key` succeeds on every table; it then selects all the tables and joins each consecutive pair on the referenced columns; otherwise the first table on which `_foreign_key` raises decides the exception |
| Construct.KeyColumnsNamedAsTargets | src/cryotrace/data_model/__init__.py:69-176 | every key column of __init__.py bears the name of the column it references, which `getattr(tab, _foreign_key(tab))` relies on; in the fuller schema ParticleSetInfo's key does not |
| Construct.WrittenJoinsRaiseOnward | src/cryotrace/data_model/construct.py:46-51 | once a prefix of the joins raises, every longer prefix raises the same |
| Construct.LinearJoins | src/cryotrace/data_model/construct.py:44-52 | the loop computes the written query |
| Construct.WrittenJoinMismatchesKey | src/cryotrace/data_model/construct.py:49-50 | Exposure's key references FoilHole.foil_hole_id, yet the written join equates it with FoilHole.grid_square_id |
| Construct.WrittenJoinsRaiseAtKeylessEnd | src/cryotrace/data_model/construct.py:50 | a list on whose tables before the last `_foreign_key` succeeds, and whose last table has no key, raises IndexError |
| Construct.WrittenJoinsFailAtRoot | src/cryotrace/data_model/construct.py:44-52 | every chain of two or more tables that ends at a keyless table, as every chain to Atlas does, makes `linear_joins` raise IndexError |
| Construct.WrittenGridSquareJoinRaises | src/cryotrace/data_model/construct.py:44-52 | `linear_joins([GridSquare, Atlas])` raises IndexError |
| Construct.DeclaredExposureJoinRaises | src/cryotrace/data_model/construct.py:44-52 | as declared, `_foreign_key(Exposure)` and every `linear_joins` list of two or more tables starting at Exposure raise NoReferencedTableError |
| Construct.CorrectedJoinable | src/cryotrace/data_model/construct.py:10-16 | with FoilHole named correctly, `_foreign_key` succeeds on every table that has a parent |
| Construct.KeyJoinsMeaning | src/cryotrace/data_model/construct.py:44-52 | corrected joins, each along its left table's own key: the first n succeed exactly when `_foreign_key` succeeds on tables 0..n-1, and join i equates that key's column with the column it references on table i+1 |
| Construct.ChainJoinsFollowKeys | src/cryotrace/data_model/construct.py:44-52 | along any chain the corrected joins succeed, and each follows a declared foreign key, resolved to the next table |
| Construct.CorrectedParticleJoins | src/cryotrace/data_model/construct.py:44-52 | on the corrected schema, the particle chain joins each table's key column to its parent's referenced column |
| Construct.ParticleKeyJoins | src/cryotrace/data_model/construct.py:44-52 | in any schema with the declared keys on which `_foreign_key` succeeds along the particle chain, the corrected joins are the four parent-key joins |
| Structure.Positions | src/cryotrace/data_model/structure.py:31 | `{exp: i for i, exp in enumerate(exps)}`: every listed exposure maps to a position holding it, the last one for a repeated name |
| Structure.EmptySeries | src/cryotrace/data_model/structure.py:28-30 | one series of Nones per listed grid square, as long as its exposure list |
| Structure.InitialShaped | src/cryotrace/data_model/structure.py:25-31 | before any row, the result has one map per key and a series per grid square of its exposure list's length |
| Structure.WriteKeepsShape | src/cryotrace/data_model/structure.py:36 | writing a slot keeps every key, grid square and series length |
| Structure.WriteRowsKeepShape | src/cryotrace/data_model/structure.py:32-36 | so does any number of rows |
| Structure.StructuredShape | src/cryotrace/data_model/structure.py:14-37 | a successful result has exactly the requested keys, the listed grid squares and series of the listed lengths |
| Structure.WriteFailsAsRowError | src/cryotrace/data_model/structure.py:36 | a row fails exactly as RowError says: KeyError for an unrequested key, an unlisted grid square or an exposure without a position; IndexError for a position past the series |
| Structure.WriteRowsFailures | src/cryotrace/data_model/structure.py:32-36 | the rows go through exactly when none has a row error; otherwise the first one decides the exception |
| Structure.FirstRowErrorMeaning | src/cryotrace/data_model/structure.py:32-36 | the first row error is the error of the earliest failing row |
| Structure.StructuredFailures | src/cryotrace/data_model/structure.py:14-37 | as written, the result is Ok exactly when no row fails against the last grid square's positions; otherwise the first failing row's error is raised |
| Structure.WriteRowsSlots | src/cryotrace/data_model/structure.py:32-36 | each slot holds the value of the last row aimed at it, or None when no row is |
| Structure.StructuredSlots | src/cryotrace/data_model/structure.py:14-37 | as written, each slot holds the last value written to it |
| Structure.WrittenPositionsRejectListedExposure | src/cryotrace/data_model/structure.py:31 | with grid squares A:[x, y] and B:[y], a row for x in A raises KeyError although A lists x |
| Structure.WrittenPositionsMisplaceValue | src/cryotrace/data_model/structure.py:31 | and a row for y in A lands in slot 0, y's position in B, instead of slot 1 |
| Structure.CorrectedStructuredFailures | src/cryotrace/data_model/structure.py:14-37 | with each grid square's own positions, the rows go through exactly when each names a requested key, a listed grid square and an exposure of that square; failures are KeyError only |
| Structure.OwnSlot | src/cryotrace/data_model/structure.py:31 | an exposure's slot in its own grid square holds that exposure |
| Structure.CorrectedStructuredSlots | src/cryotrace/data_model/structure.py:14-37 | corrected: the slot of every listed exposure holds the last value a row wrote for that exposure in that grid square, or None |
| Structure.SetSlot | src/cryotrace/data_model/structure.py:36 | writes one array cell; the heap then holds the grid with that one slot updated |
| Structure.AddSeries | src/cryotrace/data_model/structure.py:30 | a new all-None array of the exposure list's length under the grid square, distinct from the key's other arrays |
| Structure.NewSeries | src/cryotrace/data_model/structure.py:28-31 | fresh, distinct arrays of Nones, one per grid square, plus the positions the last iteration leaves |
| Structure.NewGrid | src/cryotrace/data_model/structure.py:25-31 | the initial result over fresh, pairwise distinct arrays, and every key's positions equal to the last grid square's |
| Structure.NewKeys | src/cryotrace/data_model/structure.py:25-31 | the key loop: exactly the requested keys, each with all-None series in fresh, separate arrays and the last grid square's positions |
| Structure.WriteAll | src/cryotrace/data_model/structure.py:32-36 | the loop over the rows: Done with the arrays holding WriteRows' grid, or the exception WriteRows raises |
| Structure.GridSquareStructure | src/cryotrace/data_model/structure.py:14-37 | `grid_square_strucutre`: fails exactly as Structured does, and otherwise returns fresh, separate arrays holding Structured's grid |
| Extract.MatchingMembers | src/cryotrace/data_model/extract.py:1018-1034 | a value is selected for key k and exposure e exactly when some row carries k for e with that value; none is selected exactly when no row matches |
| Extract.MatchingFirst | src/cryotrace/data_model/extract.py:845-853 | the first selected value is the value of the first matching row |
| Extract.MatchingRowsMeaning | src/cryotrace/data_model/extract.py:1018-1034 | the selected values are, in order, the values of exactly the matching rows: the row indices rise strictly, each names a matching row whose value is the one selected at that place, and every matching row is among them |
| Extract.Mean | src/cryotrace/data_model/extract.py:1021-1028 | `np.mean` is NaN exactly for the empty list |
| Extract.SumBetween | src/cryotrace/data_model/extract.py:1021-1028 | the sum of values in [lo, hi] lies between n·lo and n·hi |
| Extract.MeanBetween | src/cryotrace/data_model/extract.py:1021-1028 | the mean of values within [lo, hi] lies within [lo, hi] |
| Extract.Values | src/cryotrace/data_model/extract.py:1030-1035 | values as series entries, one per value |
| Extract.AveragedSeries | src/cryotrace/data_model/extract.py:1014-1028 | averaged, a key's series has one entry per exposure: the mean of that exposure's values |
| Extract.ConcatenatedSeries | src/cryotrace/data_model/extract.py:1029-1035 | not averaged, a series holds only values, and v occurs in it exactly when some row carries the key with value v for one of the exposures |
| Extract.ConcatenatedLength | src/cryotrace/data_model/extract.py:1029-1035 | not averaged, a series has as many entries as the listed exposures have matching rows in total |
| Extract.ConcatenatedBlock | src/cryotrace/data_model/extract.py:1016-1035 | not averaged, the entries of exposure i come after those of the exposures before it and are exactly its selected values in row order |
| Extract.EarlierBlock | src/cryotrace/data_model/extract.py:1016-1035 | extending the list of exposures leaves the block of each earlier exposure in place |
| Extract.LastBlock | src/cryotrace/data_model/extract.py:1029-1035 | the last exposure's selected values end the series |
| Extract.ParseSeries | src/cryotrace/data_model/extract.py:1016-1035 | the loop over the exposures builds the key's series |
| Extract.ParseParticleData | src/cryotrace/data_model/extract.py:1006-1036 | `_parse_particle_data`: one series per key, each as ParseSeries builds it |
| Extract.ExposureSeriesEntries | src/cryotrace/data_model/extract.py:843-854 | each exposure-key series has one entry per exposure: the first matching value, or 0 |
| Extract.FirstOrZeroMeaning | src/cryotrace/data_model/extract.py:845-854 | 0 when no row matches; otherwise the value of the first matching row |
| Extract.FoilHoleStatsKeys | src/cryotrace/data_model/extract.py:801-873 | with no keys at all the result is empty; otherwise it holds exactly the requested keys, the particle and particle-set series overriding the exposure series of the same key |
| Extract.FirstValues | src/cryotrace/data_model/extract.py:845-854 | the inner loop computes the exposure series |
| Extract.ExposureStats | src/cryotrace/data_model/extract.py:843-854 | the loop over the exposure keys gives every exposure key its series |
| Extract.FoilHoleStatsAll | src/cryotrace/data_model/extract.py:801-873 | `get_foil_hole_stats_all` on the rows its three queries return |
| Extract.MergeMeaning | src/cryotrace/data_model/extract.py:886-899 | after the merge, `stats[k]` exists exactly when some foil hole has key k, `stats[k][fh]` exactly when foil hole fh has k, and it is that foil hole's series (the last one for a repeated name) |
| Extract.MergeFoilHole | src/cryotrace/data_model/extract.py:895-899 | one foil hole's items merged: `stats[k][fh] = v`, creating `stats[k]` on KeyError |
| Extract.GridSquareStatsAll | src/cryotrace/data_model/extract.py:875-900 | `get_grid_square_stats_all`: empty with no keys; otherwise every foil hole merged in order |
| Extract.ParticlesAtMembers | src/cryotrace/data_model/extract.py:705-708 | the query returns exactly the particle rows of the exposure at exactly (x, y) |
| Extract.ParticlesAtCount | src/cryotrace/data_model/extract.py:705-708 | one row per particle at the position |
| Extract.ParticleIdMeaning | src/cryotrace/data_model/extract.py:704-716 | `get_particle_id`: None when no particle is there, ValueError when several are, otherwise the id of the one particle at that position |
| Extract.AtlasWithThumbnailMeaning | src/cryotrace/data_model/extract.py:569-575 | no atlas is found exactly when none has the thumbnail; otherwise it is the first that does |
| Extract.ContainsMeaning | src/cryotrace/data_model/extract.py:580-591 | a tile contains a point exactly when the point is strictly closer to the tile's stage centre than half the readout area times the pixel size, on both axes |
| Extract.FirstContainingMeaning | src/cryotrace/data_model/extract.py:580-592 | no tile is found exactly when none contains the point; otherwise it is the first tile that does |
| Extract.ParticlesOfMembers | src/cryotrace/data_model/extract.py:676-702 | an exposure's particles are exactly the particle rows of that exposure |
| Extract.Extractor.constructor | src/cryotrace/data_model/extract.py:489-494 | an extractor for the given atlas id over the given rows, with nothing stored yet |
| Extract.Extractor.Store | src/cryotrace/data_model/extract.py:724-737 | `put_info`, `put_particles` or `put` appends its batch to the stored batches and changes nothing else |
| Extract.Extractor.SetAtlasId | src/cryotrace/data_model/extract.py:569-575 | returns whether an atlas has the thumbnail; the atlas id becomes the first such atlas's id, or stays as it was; nothing is written to the store |
| Extract.Extractor.GetTile | src/cryotrace/data_model/extract.py:577-592 | the first tile of the current atlas, in query order, that contains the position; None when none does |
| Star.KeptNamesMeaning | src/cryotrace/parsing/star.py:28-30 | a column of a block is kept exactly when no ignore pattern is a substring of its name |
| Star.KeptNamesAll | src/cryotrace/parsing/star.py:31-32 | with nothing to ignore, every column is kept in order |
| Star.ColumnsMeaning | src/cryotrace/parsing/star.py:24-33 | `get_columns`: a name is returned exactly when some block has a column of that name that no pattern matches |
| Star.ColumnsWithoutIgnore | src/cryotrace/parsing/star.py:24-33 | with no patterns, every column of every block, in file order |
| Star.GetColumns | src/cryotrace/parsing/star.py:24-33 | the loop over the blocks computes the columns |
| Star.SelectMeaning | src/cryotrace/parsing/star.py:40 | the selection keeps exactly the block's columns that are named in the list |
| Star.ColumnDataMeaning | src/cryotrace/parsing/star.py:36-40 | `get_column_data`: KeyError exactly when no block has the tag; otherwise the selected columns of the first block with that tag |
| Star.RemoveAllAbsent | src/cryotrace/parsing/star.py:92 | `replace` leaves a string without the pattern unchanged |
| Star.ExposureNameExample | src/cryotrace/parsing/star.py:91-93 | the micrograph with stem "A_fractions" is exposure "A.jpg" |
| Star.StructureRowsRaiseOnward | src/cryotrace/parsing/star.py:90-105 | an exception stops the grouping: every longer prefix ends with it |
| Star.GroupAligned | src/cryotrace/parsing/star.py:89-106 | each group belongs to a listed exposure; its coordinates and indices are parallel; the indices strictly increase; entry j is the coordinate of row `indices[j]`, a row of that exposure |
| Star.GroupComplete | src/cryotrace/parsing/star.py:89-106 | every row of a listed exposure is recorded in that exposure's group |
| Star.StructureRowsFail | src/cryotrace/parsing/star.py:90-105 | the grouping fails exactly when some row of a listed exposure lacks its x or y cell |
| Star.StructureParticleData | src/cryotrace/parsing/star.py:82-106 | `_structure_particle_data`: KeyError without the exposure column, otherwise the loop computes the groups |
| StarInsert.ExtraKeys | src/cryotrace/parsing/star.py:119 | the extra keys are exactly the non-empty column names other than the given tags |
| StarInsert.ExtraKeysInOrder | src/cryotrace/parsing/star.py:119 | the extra keys keep the column order: the m-th names a column, the columns named rise strictly, and every column with a non-empty name outside the tags is named |
| StarInsert.ExtraKeysNameColumns | src/cryotrace/parsing/star.py:119 | the m-th extra key is the name of the m-th column kept |
| StarInsert.ExtraColumnsRise | src/cryotrace/parsing/star.py:119 | the kept columns rise strictly and include every column with a non-empty name outside the tags |
| StarInsert.CoordIdsMeaning | src/cryotrace/parsing/star.py:130-132 | `{(x, y): id}` over a list of particles: a coordinate is a key exactly when some particle has it, and its id is the last such particle's |
| StarInsert.ColumnEntriesRaiseOnward | src/cryotrace/parsing/star.py:55-77 | an exception in a column stops the column |
| StarInsert.ExposureEntriesRaiseOnward | src/cryotrace/parsing/star.py:53-77 | an exception stops the loop over the columns |
| StarInsert.ColumnEntriesMeaning | src/cryotrace/parsing/star.py:55-77 | membership: every ExposureInfo a column adds is keyed by the column and holds a cell of a row whose exposure validation keeps, for that row's exposure, and every such cell is added |
| StarInsert.KeptRowsMeaning | src/cryotrace/parsing/star.py:55-77 | the rows a column keeps are listed in rising order, and a row is listed exactly when the exposure column reaches it and validation keeps its exposure |
| StarInsert.ColumnEntriesExact | src/cryotrace/parsing/star.py:55-77 | a column that raises nothing appends to the batch exactly one ExposureInfo per kept row, in row order, for that row's exposure, keyed by the column, holding that row's cell |
| StarInsert.ColumnEntriesFail | src/cryotrace/parsing/star.py:55-58 | a column fails exactly when it has a cell and the exposure column is missing (KeyError) or too short (IndexError) |
| StarInsert.ExposureEntriesMeaning | src/cryotrace/parsing/star.py:43-79 | membership: an info is stored exactly when it is built from a cell of a column other than the exposure column, in a row whose exposure validation keeps |
| StarInsert.ExposureEntriesExact | src/cryotrace/parsing/star.py:53-79 | when nothing raises, the `put_info` batch is the columns in order, the exposure column contributing nothing and every other column its kept entries in row order |
| StarInsert.ExposureEntriesFail | src/cryotrace/parsing/star.py:43-79 | `insert_exposure_data` raises exactly when a non-exposure column has a cell in a row the exposure column does not reach |
| StarInsert.AddColumn | src/cryotrace/parsing/star.py:55-77 | the inner loop computes a column's entries |
| StarInsert.InsertExposureData | src/cryotrace/parsing/star.py:43-79 | stores one `put_info` batch of the infos, or nothing on an exception, and leaves the atlas id alone |
| StarInsert.UnmatchedMeaning | src/cryotrace/parsing/star.py:149-153 | the new particles are exactly the group's coordinates that no stored particle has, with that exposure |
| StarInsert.KeyValuesShape | src/cryotrace/parsing/star.py:137-145 | a matched particle gets one ParticleInfo per extra key, in key order, naming the stored id, and each holds that key's cell of the particle's row |
| StarInsert.MatchedAtMeaning | src/cryotrace/parsing/star.py:135-137 | the matched coordinates of a group are listed in rising order, and a coordinate is listed exactly when it is among the stored coordinates |
| StarInsert.ScanGroupInfoAt | src/cryotrace/parsing/star.py:135-145 | info k of the q-th matched coordinate i sits at offset q * (number of extra keys) + k of what the scan adds; it names the particle stored at coordinate i, extra key k, and holds key k's cell of row `indices[i]` |
| StarInsert.EarlierMatchInfo | src/cryotrace/parsing/star.py:135-145 | the same for a coordinate matched before the last one scanned: a later coordinate leaves its infos in place |
| StarInsert.LastMatchInfo | src/cryotrace/parsing/star.py:137-145 | the same for the last coordinate scanned, when it is matched: its infos are the last ones added |
| StarInsert.ScanGroupQueued | src/cryotrace/parsing/star.py:135-153 | the queued particles and their row indices stay parallel and gain exactly the unmatched coordinates |
| StarInsert.MatchedCount | src/cryotrace/parsing/star.py:136 | at most one match per coordinate |
| StarInsert.MatchedOrQueued | src/cryotrace/parsing/star.py:136-153 | every coordinate is matched or queued, never both |
| StarInsert.ScanGroupInfoCount | src/cryotrace/parsing/star.py:136-145 | the scan adds one info per extra key and matched coordinate |
| StarInsert.ScanGroupStoredIds | src/cryotrace/parsing/star.py:136-145 | every info the scan adds names a stored particle whose id is the id of one of the group's coordinates |
| StarInsert.ScanExposuresParallel | src/cryotrace/parsing/star.py:128-153 | over all exposures, the new particles and their row indices stay parallel |
| StarInsert.StructureParallel | src/cryotrace/parsing/star.py:89-106 | every group has as many indices as coordinates |
| StarInsert.QueuedKeyShape | src/cryotrace/parsing/star.py:155-164 | for a key, one info per queued particle, naming the queued particle and its row's cell |
| StarInsert.AddKeyValues | src/cryotrace/parsing/star.py:137-145 | the loop over the extra keys for a matched particle |
| StarInsert.KeyValuesRaiseOnward | src/cryotrace/parsing/star.py:137-145 | an exception stops the loop over the keys |
| StarInsert.ScanGroupRaiseOnward | src/cryotrace/parsing/star.py:135-153 | an exception stops the loop over the coordinates |
| StarInsert.ScanExposuresRaiseOnward | src/cryotrace/parsing/star.py:128-153 | an exception stops the loop over the exposures |
| StarInsert.QueuedKeyRaiseOnward | src/cryotrace/parsing/star.py:156-164 | an exception stops the loop over the new particles |
| StarInsert.QueuedInfosRaiseOnward | src/cryotrace/parsing/star.py:155-164 | an exception stops the loop over the keys |
| StarInsert.ScanCoordinates | src/cryotrace/parsing/star.py:135-153 | the loop over a group's coordinates computes the scan |
| StarInsert.AddQueued | src/cryotrace/parsing/star.py:156-164 | the loop over the new particles computes a key's infos |
| StarInsert.ScanAll | src/cryotrace/parsing/star.py:128-153 | the loop over the exposures computes the scan of all of them |
| StarInsert.AddAllQueued | src/cryotrace/parsing/star.py:155-164 | the loop over the extra keys computes the infos of the new particles |
| StarInsert.InsertParticleData | src/cryotrace/parsing/star.py:109-166 | stores the new particles, then the infos only when there are some, and ends as InsertParticleOutcome says; the atlas id is unchanged |
| StarSet.DistinctCard | src/cryotrace/parsing/star.py:184 | a list without repeats has as many members as entries |
| StarSet.SetEntriesMeaning | src/cryotrace/parsing/star.py:184-188 | one ParticleSet per distinct set id, each of the group, and exactly the ids of the column |
| StarSet.Find | src/cryotrace/parsing/star.py:198-203 | the first row holding a set id, None exactly when no row does |
| StarSet.InstanceMeaning | src/cryotrace/parsing/star.py:200-202 | a set instance has exactly the extra keys present in the data, each the float of that column's cell in the row |
| StarSet.InstancesFirstRow | src/cryotrace/parsing/star.py:196-203 | every set id gets an instance, the one of the first row holding that id |
| StarSet.InstancesCover | src/cryotrace/parsing/star.py:196-203 | after the loop, every set id has an instance with every extra key |
| StarSet.InstanceFail | src/cryotrace/parsing/star.py:201 | building an instance raises only IndexError (a short column) or ValueError (a cell `float` rejects) |
| StarSet.InstancesFail | src/cryotrace/parsing/star.py:196-203 | building the instances raises only those two |
| StarSet.GroupLinkersStored | src/cryotrace/parsing/star.py:209-218 | every linker of a group links a set id of the column to a non-zero id of a stored particle |
| StarSet.LinkersStored | src/cryotrace/parsing/star.py:205-218 | so does every linker of every exposure |
| StarSet.LinkedMeaning | src/cryotrace/parsing/star.py:209-210 | the positions that get a linker are, in rising order, exactly those whose coordinate has a stored id other than 0 |
| StarSet.GroupLinkersExact | src/cryotrace/parsing/star.py:209-218 | a group that raises nothing appends exactly one linker per linked position c, in order, naming the set `data[set_id_tag][indices[c]]` and the id stored at coordinate c |
| StarSet.LinkersExact | src/cryotrace/parsing/star.py:205-218 | the exposure loop, when it raises nothing, appends exactly one linker per linked (exposure, position) pair, in exposure order, each as GroupLinkersExact states |
| StarSet.GroupLinkersFail | src/cryotrace/parsing/star.py:213-215 | a group's linkers raise only IndexError |
| StarSet.LinkersFail | src/cryotrace/parsing/star.py:205-218 | all linkers raise only IndexError |
| StarSet.KeyInfosTotal | src/cryotrace/parsing/star.py:224-232 | with every instance complete, a key yields one ParticleSetInfo per set id, with that instance's value |
| StarSet.SetInfosTotal | src/cryotrace/parsing/star.py:222-232 | then the infos never raise, and there is one per key and set id |
| StarSet.InsertSetKeyError | src/cryotrace/parsing/star.py:169-234 | a KeyError ending means the set-id column is missing or `_structure_particle_data` raised it |
| StarSet.InstanceRaiseOnward | src/cryotrace/parsing/star.py:201 | an exception stops an instance |
| StarSet.InstancesRaiseOnward | src/cryotrace/parsing/star.py:197-203 | an exception stops the instances |
| StarSet.GroupLinkersRaiseOnward | src/cryotrace/parsing/star.py:209-218 | an exception stops a group's linkers |
| StarSet.LinkersRaiseOnward | src/cryotrace/parsing/star.py:205-218 | an exception stops the linkers |
| StarSet.KeyInfosRaiseOnward | src/cryotrace/parsing/star.py:224-232 | an exception stops a key's infos |
| StarSet.SetInfosRaiseOnward | src/cryotrace/parsing/star.py:223-232 | an exception stops the infos |
| StarSet.FindFirst | src/cryotrace/parsing/star.py:198-203 | the loop with `break` finds the first row holding the set id |
| StarSet.FindUnique | src/cryotrace/parsing/star.py:198-203 | an index that holds x, with no earlier index holding it, is Find's answer |
| StarSet.BuildInstance | src/cryotrace/parsing/star.py:200-202 | the dict comprehension over the data computes an instance |
| StarSet.BuildInstances | src/cryotrace/parsing/star.py:196-203 | the loop over the set ids computes the instances |
| StarSet.AddInstance | src/cryotrace/parsing/star.py:197-203 | one set id: skipped when no row carries it, otherwise its instance is added or its exception raised, extending the instances by that id |
| StarSet.GroupLinkerLoop | src/cryotrace/parsing/star.py:209-218 | the loop over a group's coordinates computes its linkers |
| StarSet.LinkerLoop | src/cryotrace/parsing/star.py:205-218 | the loop over the exposures computes the linkers |
| StarSet.KeyInfoLoop | src/cryotrace/parsing/star.py:224-232 | the loop over the set ids computes a key's infos |
| StarSet.SetInfoLoop | src/cryotrace/parsing/star.py:223-232 | the loop over the extra keys computes the infos |
| StarSet.InsertParticleSet | src/cryotrace/parsing/star.py:169-234 | stores the sets, then the linkers if any, then the set infos if any, and ends as InsertSetOutcome says; the atlas id is unchanged |
| StarSet.StoreSets | src/cryotrace/parsing/star.py:184-192 | the sets are stored before the grouping, so a grouping failure still leaves them stored |
| StarSet.LinkAndDescribe | src/cryotrace/parsing/star.py:193-234 | the instances, linkers and set infos, stored as LinkOutcome says |
| StageModel.Trunc | src/smartem/stage_model.py:17-18 | Python's `int()` on a float rounds toward zero |
| StageModel.TruncOdd | src/smartem/stage_model.py:17-18 | truncation is symmetric about zero |
| StageModel.FloorDiv | src/smartem/stage_model.py:16 | Python's `//` by a positive divisor rounds down |
| StageModel.FindPointPixel | src/smartem/stage_model.py:4-20 | `find_point_pixel`: ZeroDivisionError exactly for a zero spacing |
| StageModel.CentreToCentrePixel | src/smartem/stage_model.py:4-20 | the image centre maps to the centre pixel `(size_x // 2, size_y // 2)` |
| StageModel.CentrePixelFloors | src/smartem/stage_model.py:16 | for every positive size the centre pixel `size // 2` is inside the image, with as many pixels after it as before for an odd size and one fewer after for an even size; a negative size floors away from zero |
| StageModel.OffsetTruncates | src/smartem/stage_model.py:17-18 | an axis moves by the factor times the whole number of pixels the offset spans, rounded toward zero |
| StageModel.MirrorX | src/smartem/stage_model.py:4-20 | negating `xfactor` mirrors the x pixel about the centre pixel and leaves y alone |
| StageModel.Separable | src/smartem/stage_model.py:4-20 | each pixel coordinate depends only on its own axis's inputs |
| StageModel.CentrePixelToCentre | src/smartem/stage_model.py:23-34 | `stage_position` maps the centre pixel to the physical centre |
| StageModel.StagePositionAffine | src/smartem/stage_model.py:23-34 | one pixel along an axis moves the stage by the spacing along that axis only |
| StageModel.StageRoundTrip | src/smartem/stage_model.py:4-34 | with both factors -1, `stage_position` undoes `find_point_pixel` to within one pixel's spacing on each axis |
| Torch.CountTrue | src/smartem/data_model/torch.py:37 | `sum(conds)`: at most the number of conditions, and 0 exactly when none holds |
| Torch.ComputeLabel | src/smartem/data_model/torch.py:24-43 | `compute_label` returns 0, 1 or 2, and raises exactly when building the conditions does |
| Torch.ConditionsMeaning | src/smartem/data_model/torch.py:31-36 | one condition per annotation: below the threshold for a lower-is-better label, above it otherwise |
| Torch.ConditionsFail | src/smartem/data_model/torch.py:31-36 | the conditions raise exactly when there are fewer labels than annotations (IndexError) or a label has no threshold (KeyError) |
| Torch.DarkImage | src/smartem/data_model/torch.py:37-43 | a pixel condition of 0.25 or more gives label 2 |
| Torch.LightImage | src/smartem/data_model/torch.py:37-42 | below 0.25: 0 exactly when at least 0.75·len(labels) conditions hold; 1 when fewer hold but some do; 2 when none does |
| Torch.NewDataset | src/smartem/data_model/torch.py:84-99 | ValueError exactly for a level other than grid_square or foil_hole |
| Torch.PyLen | src/smartem/data_model/torch.py:160-161 | `len(self)`: `__len__`, or ValueError when it is negative |
| Torch.PyIndex | src/smartem/data_model/torch.py:165-166 | Python indexing with negative indices counting from the end; IndexError outside the list |
| Torch.GetItemGuard | src/smartem/data_model/torch.py:153-166 | every index from 0 below the length passes the guard, mapped through a restriction when there is one; no index at or past the length does |
| Torch.LenExample | tests/data_model/test_torch.py:16-23 | the loader of the tests over ten grid squares sampled twice has length 20 |
| Torch.RestrictedLen | src/smartem/data_model/torch.py:154-155 | a restriction decides the length alone |
| Torch.DroppedMeaning | src/smartem/data_model/torch.py:186-241 | a foil hole is dropped exactly when its centre pixel lies outside the closed window of the sub-sample size at the window's corner |
| Torch.DroppedCentres | src/smartem/data_model/torch.py:186-241 | when the drops are computed, every row's centre was computed |
| Torch.DroppedFail | src/smartem/data_model/torch.py:186-241 | the window test raises only KeyError (full resolution, collection without a calibration entry) or ZeroDivisionError |
| Torch.DroppedRaiseOnward | src/smartem/data_model/torch.py:186-241 | an exception stops the loop |
| Torch.DroppedNext | src/smartem/data_model/torch.py:203-212 | one more row appends its label exactly when its centre is outside |
| Torch.DropIndices | src/smartem/data_model/torch.py:186-241 | the `iterrows` loop computes the dropped labels |

## Left out

- Construct.WrittenJoinsMeaning and Construct.WrittenQueryMeaning: `getattr(tab, _foreign_key(tab))` (construct.py:49-50) looks up an attribute named after the column the key REFERENCES, and the model takes that lookup to succeed, so the AttributeError it raises on a table without such an attribute is not modelled. In __init__.py every key column bears its referenced column's name (`Construct.KeyColumnsNamedAsTargets`), so the lookup succeeds there. The fuller schema's ParticleSetInfo key `set_name` references `identifier`, and there `linear_joins` would raise AttributeError where these lemmas state success.
- The SQL session is not modelled. The rows its queries return are parameters; the `Extractor` keeps the exposures of each atlas and the Particle table as fields. `get_exposure_names`, `get_foil_holes`, `get_particles` and `get_all_exposures` are therefore values or functions of those fields.
- Stored batches are recorded in order but are not read back. The particle table is fixed for the life of an extractor.
- A particle that `insert_particle_data` queues is named by its place in the batch (`Queued(index)`), because its database id exists only after the commit.
- Dict and set iteration order is not modelled. The order in which `insert_particle_set` visits `set(data[set_id_tag])` is a parameter. Its requirement, Enumerates, says only that the order lists each distinct set id once.
- Floats are reals; `np.mean` of an empty list is the value `NotANumber`; bit widths and rounding of IEEE arithmetic are not modelled.
- STAR cells are `Text` or `Number`. `float()` of a text cell is a parameter that may reject it (ValueError). `Path(...).stem` is a parameter function, so a TypeError from a non-path cell is not modelled.
- gemmi and the JSON form of a STAR file (`open_star_file`, `as_json`) are left out; a file is a list of named blocks of columns.
- `print` of an unknown exposure in `insert_exposure_data` is left out; the entry is skipped as in the source.
- `found_particles` in `insert_particle_data` is written but never read, so it is left out.
- `extract_keys` and `get_exposure_stats_multi` are not part of this model.
- The duplicate schema module src/cryotrace/__init__.py is not part of this model.
- `_tables`, which construct.py imports from the schema module (construct.py:5), is not defined in src/cryotrace/data_model/__init__.py. The model takes it to be exactly the seven declared tables (Schema.DeclaredTables).
- src/cryotrace/data_model/__init__.py:4 imports `sqlalchemy.ext.declaritive`, a misspelt module name, so the schema module cannot be imported as written. The model describes the tables it declares as if the import succeeded.
- `EPUImage` (src/cryotrace/data_model/__init__.py:10-45) declares columns but no `__tablename__` and is not `__abstract__`. SQLAlchemy's refusal to map such a class is not modelled. It is not a table of the model, and its columns play no part in the modelled operations.
- SQLAlchemy's mapper registry is modelled as the list of mapped tables (`mapped`). In all three schemas it is the list of registered tables. A foreign key whose table is mapped but whose column does not exist (NoReferencedColumnError) is not modelled: every referenced column is taken to exist.
- Construct.TableChain: termination is taken from a rank that falls from each table to its parent (`Ranked`). On a schema with a cycle of parents the source loops forever, and that case is not modelled.
- Structure.GridSquareStructure requires the grid-square list to have distinct names, as the source's dict does.
- Torch: image and file loading, the `pandas` frame and its `groupby`/`iloc` lookups, and the `numpy` random window corners are left out. The thresholds of `thresholds()` are a map parameter; the window corner, the number of distinct values of the level's column and the image sizes are parameters; the pixel condition is a parameter. `np.random.seed(seed)` (torch.py:83) runs before the level check and raises ValueError for a seed outside [0, 2**32); the seed is not modelled.
- Torch.NewDataset: its "ValueError exactly for an unknown level" holds only for a seed in [0, 2**32), because a seed outside that range raises ValueError first, whatever the level.
- Torch: `_determine_extension` (torch.py:133) replaces `_gs_jpeg_size` with a tuple, although lines 224 and 226 index it by collection. The JPEG size is therefore taken as a parameter, as if the dictionary entry existed.
- Torch: the dataset is a value, not an object, because its fields are set once from files and never updated by the modelled operations.
- Torch: the labels and the mean computed after the drops, and the tensors `__getitem__` returns, are left out.

## Findings

| source | as written | input that shows it | evidently intended | confidence | as-written member | corrected member |
|---|---|---|---|---|---|---|
| src/cryotrace/data_model/__init__.py:74 | FoilHole's `__tablename__` is "FoliHole", while Exposure's foreign key names "FoilHole.foil_hole_id" (line 97) | `table_chain(Exposure, Atlas)`: no mapped table is named "FoilHole", so `fk.column` raises NoReferencedTableError | the table is named "FoilHole", and the chain runs Exposure, FoilHole, GridSquare, Atlas | not executed | Construct.DeclaredExposureChainRaises | Construct.CorrectedChains |
| src/cryotrace/data_model/construct.py:49-50 | each join equates table i's key column with table i+1's OWN key column, and `_foreign_key` of a keyless last table raises IndexError | `linear_joins([Exposure, FoilHole, GridSquare])` joins on FoilHole.grid_square_id; `linear_joins([GridSquare, Atlas])` raises IndexError | join i equates table i's key column with the column that key references on table i+1 | not executed | Construct.WrittenJoinMismatchesKey | Construct.ChainJoinsFollowKeys |
| src/cryotrace/data_model/structure.py:31 | `gs_indices[k]` is overwritten for every grid square, so every grid square uses the last grid square's positions | grid squares A:[x, y] and B:[y]: a row for x in A raises KeyError, and a row for y in A lands in slot 0 | each grid square keeps its own exposure positions | not executed | Structure.WrittenPositionsMisplaceValue | Structure.CorrectedStructuredSlots |
