/** `insert_particle_set` of src/cryotrace/parsing/star.py: one ParticleSet
    row per distinct value of the set-id column, the values of the other
    columns at the first row of each set, and a linker from each stored
    particle of the file to the set its row names. */
module StarSet {
  import opened Common
  import opened Star
  import opened Extract
  import opened StarInsert

  /** `order` is an iteration order of `set(column)`: every distinct cell
      of the column exactly once. */
  predicate Enumerates(order: seq<Cell>, column: seq<Cell>)
  {
    && (forall i, j :: 0 <= i < j < |order| ==> order[i] != order[j])
    && (forall x :: x in order ==> x in column)
    && (forall x :: x in column ==> x in order)
  }

  /** `[ParticleSet(group_name=set_name, identifier=si) for si in set_ids]`. */
  function SetEntries(setName: string, order: seq<Cell>): seq<Entry>
  {
    seq(|order|, i requires 0 <= i < |order| => ParticleSet(setName, order[i]))
  }

  /** A sequence without repeats has as many elements as its set. */
  lemma {:induction false} DistinctCard(order: seq<Cell>)
    requires forall i, j :: 0 <= i < j < |order| ==> order[i] != order[j]
    ensures |set x | x in order| == |order|
  {
    if |order| > 0 {
      var n := |order|;
      var front := order[..n - 1];
      assert forall i :: 0 <= i < n - 1 ==> front[i] == order[i];
      DistinctCard(front);
      assert order == front + [order[n - 1]];
      assert (set x | x in order) == (set x | x in front) + {order[n - 1]};
      assert order[n - 1] !in front;
    }
  }

  /** One ParticleSet per distinct set id, all under the set name. */
  lemma SetEntriesMeaning(setName: string, order: seq<Cell>, column: seq<Cell>)
    requires Enumerates(order, column)
    ensures |SetEntries(setName, order)| == |set x | x in column|
    ensures forall x :: ParticleSet(setName, x) in SetEntries(setName, order) <==> x in column
    ensures forall e :: e in SetEntries(setName, order) ==> e.ParticleSet? && e.groupName == setName
  {
    DistinctCard(order);
    assert (set x | x in order) == (set x | x in column);
    forall x | x in column
      ensures ParticleSet(setName, x) in SetEntries(setName, order)
    {
      var i :| 0 <= i < |order| && order[i] == x;
      assert SetEntries(setName, order)[i] == ParticleSet(setName, x);
    }
  }

  /** Where `for i, s in enumerate(column): if s == si: ... break` stops:
      the first row holding `x`, or None when no row does. */
  function Find(column: seq<Cell>, x: Cell): (r: Option<nat>)
    ensures r.None? <==> x !in column
    ensures r.Some? ==> r.value < |column| && column[r.value] == x && forall j :: 0 <= j < r.value ==> column[j] != x
  {
    if |column| == 0 then None
    else if column[0] == x then Some(0)
    else
      match Find(column[1..], x)
      case None => None
      case Some(i) => Some(i + 1)
  }

  /** `float(cell)`: a number is itself, text goes through `parse`, and text
      that is not a number raises ValueError. */
  function ToFloat(parse: string -> Option<real>, c: Cell): Result<real>
  {
    match c
    case Number(v) => Ok(v)
    case Text(t) =>
      match parse(t)
      case None => Err(ValueError)
      case Some(v) => Ok(v)
  }

  /** `{k: float(v[row]) for k, v in data.items() if k in extra}` over the
      first n columns. */
  function Instance(data: Block, extra: seq<string>, row: nat, parse: string -> Option<real>, n: nat): Result<map<string, real>>
    requires n <= |data|
  {
    if n == 0 then Ok(map[])
    else
      match Instance(data, extra, row, parse, n - 1)
      case Err(e) => Err(e)
      case Ok(m) =>
        var (k, v) := data[n - 1];
        if k in extra then
          match At(v, row)
          case Err(e) => Err(e)
          case Ok(c) =>
            match ToFloat(parse, c)
            case Err(e) => Err(e)
            case Ok(f) => Ok(m[k := f])
        else Ok(m)
  }

  /** `set_instances` after the first n ids of `order`: each id found in the
      column gets the values of its first row. */
  function Instances(data: Block, extra: seq<string>, column: seq<Cell>, order: seq<Cell>, parse: string -> Option<real>,
                     n: nat): Result<map<Cell, map<string, real>>>
    requires n <= |order|
  {
    if n == 0 then Ok(map[])
    else
      match Instances(data, extra, column, order, parse, n - 1)
      case Err(e) => Err(e)
      case Ok(inst) =>
        match Find(column, order[n - 1])
        case None => Ok(inst)
        case Some(i) =>
          match Instance(data, extra, i, parse, |data|)
          case Err(e) => Err(e)
          case Ok(m) => Ok(inst[order[n - 1] := m])
  }

  /** acc followed by a linker for each of a group's first n coordinates
      whose stored particle has a nonzero id (`particle_coords.get(particle)`
      is truthy), naming the set of the coordinate's row. */
  function GroupLinkers(acc: seq<Entry>, column: seq<Cell>, coords: map<(Cell, Cell), int>, g: Group, n: nat): Result<seq<Entry>>
    requires n <= |g.coordinates|
  {
    if n == 0 then Ok(acc)
    else
      match GroupLinkers(acc, column, coords, g, n - 1)
      case Err(e) => Err(e)
      case Ok(ls) =>
        var c := g.coordinates[n - 1];
        if c in coords && coords[c] != 0 then
          match At(g.indices, n - 1)
          case Err(e) => Err(e)
          case Ok(row) =>
            match At(column, row)
            case Err(e) => Err(e)
            case Ok(name) => Ok(ls + [ParticleSetLinker(name, coords[c])])
        else Ok(ls)
  }

  /** The linkers of the first m exposures that have a group. */
  function Linkers(acc: seq<Entry>, column: seq<Cell>, exposures: seq<string>, groups: Groups, particles: seq<ParticleRow>,
                   m: nat): Result<seq<Entry>>
    requires m <= |exposures|
  {
    if m == 0 then Ok(acc)
    else
      match Linkers(acc, column, exposures, groups, particles, m - 1)
      case Err(e) => Err(e)
      case Ok(ls) =>
        var e := exposures[m - 1];
        if e in groups then GroupLinkers(ls, column, CoordIds(ParticlesOf(particles, e)), groups[e], |groups[e].coordinates|)
        else Ok(ls)
  }

  /** acc followed by `ParticleSetInfo(si, source, key, set_instances[si][key])`
      for the first n ids; a missing instance or key raises KeyError. */
  function KeyInfos(acc: seq<Entry>, key: string, order: seq<Cell>, source: string, inst: map<Cell, map<string, real>>,
                    n: nat): Result<seq<Entry>>
    requires n <= |order|
  {
    if n == 0 then Ok(acc)
    else
      match KeyInfos(acc, key, order, source, inst, n - 1)
      case Err(e) => Err(e)
      case Ok(infos) =>
        var si := order[n - 1];
        if si in inst && key in inst[si] then Ok(infos + [ParticleSetInfo(si, source, key, inst[si][key])])
        else Err(KeyError)
  }

  /** The set infos of the first m extra keys, key by key. */
  function SetInfos(acc: seq<Entry>, extra: seq<string>, order: seq<Cell>, source: string, inst: map<Cell, map<string, real>>,
                    m: nat): Result<seq<Entry>>
    requires m <= |extra|
  {
    if m == 0 then Ok(acc)
    else
      match SetInfos(acc, extra, order, source, inst, m - 1)
      case Err(e) => Err(e)
      case Ok(infos) => KeyInfos(infos, extra[m - 1], order, source, inst, |order|)
  }

  /** What `insert_particle_set` stores and how it ends: nothing without the
      set-id column; then the sets, which stay stored whatever follows; then
      the linkers and the set infos, each only when there are any. */
  function InsertSetOutcome(data: Block, setName: string, setIdTag: string, exposureTag: string, xTag: string, yTag: string,
                            source: string, known: seq<string>, particles: seq<ParticleRow>, stem: Cell -> string,
                            parse: string -> Option<real>, order: seq<Cell>): (seq<PutCall>, Status)
  {
    match Lookup(data, setIdTag)
    case None => ([], Raised(KeyError))
    case Some(column) =>
      SetsOutcome(data, setName, column, ExtraKeys(data, [exposureTag, xTag, yTag, setIdTag]), exposureTag, xTag, yTag,
                  source, known, particles, stem, parse, order)
  }

  /** What `insert_particle_set` stores from the set-id column on: the sets,
      which stay stored whatever follows, then what the grouped rows give. */
  function SetsOutcome(data: Block, setName: string, column: seq<Cell>, extra: seq<string>, exposureTag: string, xTag: string,
                       yTag: string, source: string, known: seq<string>, particles: seq<ParticleRow>, stem: Cell -> string,
                       parse: string -> Option<real>, order: seq<Cell>): (seq<PutCall>, Status)
  {
    var sets := [Put(SetEntries(setName, order))];
    match StructureParticles(data, known, exposureTag, xTag, yTag, stem)
    case Err(e) => (sets, Raised(e))
    case Ok(groups) =>
      var (rest, outcome) := LinkOutcome(data, extra, column, groups, order, source, known, particles, parse);
      (sets + rest, outcome)
  }

  /** What `insert_particle_set` stores once the sets are stored and the
      rows grouped. */
  function LinkOutcome(data: Block, extra: seq<string>, column: seq<Cell>, groups: Groups, order: seq<Cell>, source: string,
                       known: seq<string>, particles: seq<ParticleRow>, parse: string -> Option<real>): (seq<PutCall>, Status)
  {
    match (if |extra| > 0 then Instances(data, extra, column, order, parse, |order|) else Ok(map[]))
    case Err(e) => ([], Raised(e))
    case Ok(inst) =>
      match Linkers([], column, known, groups, particles, |known|)
      case Err(e) => ([], Raised(e))
      case Ok(linkers) =>
        var linked := if |linkers| > 0 then [Put(linkers)] else [];
        match SetInfos([], extra, order, source, inst, |extra|)
        case Err(e) => (linked, Raised(e))
        case Ok(infos) => (linked + (if |infos| > 0 then [Put(infos)] else []), Done)
  }

  // ---------------------------------------------------------------------
  // Properties.

  /** An instance holds exactly the extra keys among the first n columns,
      each with the float of that column's cell at `row`. */
  lemma {:induction false} InstanceMeaning(data: Block, extra: seq<string>, row: nat, parse: string -> Option<real>, n: nat, k: string)
    requires n <= |data|
    requires Instance(data, extra, row, parse, n).Ok?
    ensures k in Instance(data, extra, row, parse, n).value <==> k in extra && exists j :: 0 <= j < n && data[j].0 == k
    ensures k in Instance(data, extra, row, parse, n).value ==>
      exists j :: 0 <= j < n && data[j].0 == k && row < |data[j].1| &&
        ToFloat(parse, data[j].1[row]) == Ok(Instance(data, extra, row, parse, n).value[k])
  {
    if n > 0 {
      InstanceMeaning(data, extra, row, parse, n - 1, k);
    }
  }

  /** An id has an instance exactly when it is among the first n of `order`
      and in the column, and then it holds the values of the id's first row. */
  lemma {:induction false} InstancesFirstRow(data: Block, extra: seq<string>, column: seq<Cell>, order: seq<Cell>,
                                             parse: string -> Option<real>, n: nat, si: Cell)
    requires n <= |order|
    requires Instances(data, extra, column, order, parse, n).Ok?
    ensures si in Instances(data, extra, column, order, parse, n).value <==> si in order[..n] && si in column
    ensures si in Instances(data, extra, column, order, parse, n).value ==>
      Instance(data, extra, Find(column, si).value, parse, |data|) == Ok(Instances(data, extra, column, order, parse, n).value[si])
  {
    if n > 0 {
      InstancesFirstRow(data, extra, column, order, parse, n - 1, si);
      assert order[..n] == order[..n - 1] + [order[n - 1]];
    }
  }

  /** Every linker a group adds has a nonzero id of one of the stored
      particles and names a set of the column. */
  lemma {:induction false} GroupLinkersStored(acc: seq<Entry>, column: seq<Cell>, ps: seq<ParticleRow>, g: Group, n: nat)
    requires n <= |g.coordinates|
    requires GroupLinkers(acc, column, CoordIds(ps), g, n).Ok?
    ensures var r := GroupLinkers(acc, column, CoordIds(ps), g, n).value;
      && |acc| <= |r| && r[..|acc|] == acc
      && forall j :: |acc| <= j < |r| ==>
           r[j].ParticleSetLinker? && r[j].particleId != 0 && r[j].setName in column &&
           exists p :: p in ps && p.particleId == r[j].particleId
  {
    if n > 0 {
      GroupLinkersStored(acc, column, ps, g, n - 1);
      var ls := GroupLinkers(acc, column, CoordIds(ps), g, n - 1).value;
      var c := g.coordinates[n - 1];
      if c in CoordIds(ps) && CoordIds(ps)[c] != 0 {
        CoordIdsMeaning(ps, c);
        var r := GroupLinkers(acc, column, CoordIds(ps), g, n).value;
        assert r == ls + [r[|ls|]];
        var i :| 0 <= i < |ps| && CoordOf(ps[i]) == c && CoordIds(ps)[c] == ps[i].particleId;
        assert r[|ls|].particleId == ps[i].particleId;
        assert r[..|ls|] == ls;
        assert r[..|acc|] == ls[..|acc|];
      }
    }
  }

  /** Every linker has a nonzero id of a stored particle and names a set of
      the column. */
  lemma {:induction false} LinkersStored(acc: seq<Entry>, column: seq<Cell>, exposures: seq<string>, groups: Groups,
                                         particles: seq<ParticleRow>, m: nat)
    requires m <= |exposures|
    requires Linkers(acc, column, exposures, groups, particles, m).Ok?
    ensures var r := Linkers(acc, column, exposures, groups, particles, m).value;
      && |acc| <= |r| && r[..|acc|] == acc
      && forall j :: |acc| <= j < |r| ==>
           r[j].ParticleSetLinker? && r[j].particleId != 0 && r[j].setName in column &&
           exists p :: p in particles && p.particleId == r[j].particleId
  {
    if m > 0 {
      LinkersStored(acc, column, exposures, groups, particles, m - 1);
      var ls := Linkers(acc, column, exposures, groups, particles, m - 1).value;
      var e := exposures[m - 1];
      if e in groups {
        var ps := ParticlesOf(particles, e);
        GroupLinkersStored(ls, column, ps, groups[e], |groups[e].coordinates|);
        ParticlesOfMembers(particles, e);
        var r := Linkers(acc, column, exposures, groups, particles, m).value;
        assert r[..|acc|] == r[..|ls|][..|acc|];
      }
    }
  }

  /** The positions, among a group's first n coordinates, of those that a
      particle id other than 0 is stored for, in order: the rows that get a
      linker. */
  function Linked(coords: map<(Cell, Cell), int>, g: Group, n: nat): (linked: seq<nat>)
    requires n <= |g.coordinates|
    ensures forall m :: 0 <= m < |linked| ==> linked[m] < n
  {
    if n == 0 then []
    else Linked(coords, g, n - 1) + (if g.coordinates[n - 1] in coords && coords[g.coordinates[n - 1]] != 0 then [n - 1] else [])
  }

  /** Linked lists, in rising order, exactly the positions whose
      coordinate has a stored id other than 0. */
  lemma {:induction false} LinkedMeaning(coords: map<(Cell, Cell), int>, g: Group, n: nat)
    requires n <= |g.coordinates|
    ensures forall m :: 0 <= m < |Linked(coords, g, n)| ==>
      g.coordinates[Linked(coords, g, n)[m]] in coords && coords[g.coordinates[Linked(coords, g, n)[m]]] != 0
    ensures forall m, m' :: 0 <= m < m' < |Linked(coords, g, n)| ==> Linked(coords, g, n)[m] < Linked(coords, g, n)[m']
    ensures forall c :: 0 <= c < n && g.coordinates[c] in coords && coords[g.coordinates[c]] != 0 ==> c in Linked(coords, g, n)
  {
    if n > 0 {
      LinkedMeaning(coords, g, n - 1);
    }
  }

  /** A group that raises nothing adds, after acc, exactly one linker per
      linked position c, in order: the set named by the set-id cell of the
      group's row `indices[c]`, and the id stored for coordinate c. */
  lemma {:induction false} GroupLinkersExact(acc: seq<Entry>, column: seq<Cell>, coords: map<(Cell, Cell), int>, g: Group, n: nat)
    requires n <= |g.coordinates|
    requires GroupLinkers(acc, column, coords, g, n).Ok?
    ensures |GroupLinkers(acc, column, coords, g, n).value| == |acc| + |Linked(coords, g, n)|
    ensures GroupLinkers(acc, column, coords, g, n).value[..|acc|] == acc
    ensures forall m :: 0 <= m < |Linked(coords, g, n)| ==>
      Linked(coords, g, n)[m] < |g.indices| && g.indices[Linked(coords, g, n)[m]] < |column| &&
      g.coordinates[Linked(coords, g, n)[m]] in coords &&
      GroupLinkers(acc, column, coords, g, n).value[|acc| + m] ==
        ParticleSetLinker(column[g.indices[Linked(coords, g, n)[m]]], coords[g.coordinates[Linked(coords, g, n)[m]]])
  {
    if n > 0 {
      GroupLinkersExact(acc, column, coords, g, n - 1);
      var ls := GroupLinkers(acc, column, coords, g, n - 1).value;
      var front := Linked(coords, g, n - 1);
      var c := g.coordinates[n - 1];
      if c in coords && coords[c] != 0 {
        var r := GroupLinkers(acc, column, coords, g, n).value;
        assert r == ls + [ParticleSetLinker(column[g.indices[n - 1]], coords[c])];
        assert Linked(coords, g, n) == front + [n - 1];
        assert r[..|acc|] == ls[..|acc|];
      }
    }
  }

  /** The linked rows of the first m exposures that have a group, in order:
      each exposure with each of its linked positions. */
  function LinkedPairs(exposures: seq<string>, groups: Groups, particles: seq<ParticleRow>, m: nat): seq<(string, nat)>
    requires m <= |exposures|
  {
    if m == 0 then []
    else
      var e := exposures[m - 1];
      LinkedPairs(exposures, groups, particles, m - 1) +
        (if e in groups then
           var linked := Linked(CoordIds(ParticlesOf(particles, e)), groups[e], |groups[e].coordinates|);
           seq(|linked|, q requires 0 <= q < |linked| => (e, linked[q]))
         else [])
  }

  /** The loop over the exposures, when it raises nothing, appends to acc
      exactly one linker per linked row, in order: for exposure e and
      position c, the set named at the group's row `indices[c]` and the id
      stored for e's particle at coordinate c. */
  lemma {:induction false} LinkersExact(acc: seq<Entry>, column: seq<Cell>, exposures: seq<string>, groups: Groups,
                                        particles: seq<ParticleRow>, m: nat)
    requires m <= |exposures|
    requires Linkers(acc, column, exposures, groups, particles, m).Ok?
    ensures |Linkers(acc, column, exposures, groups, particles, m).value| == |acc| + |LinkedPairs(exposures, groups, particles, m)|
    ensures Linkers(acc, column, exposures, groups, particles, m).value[..|acc|] == acc
    ensures forall j :: 0 <= j < |LinkedPairs(exposures, groups, particles, m)| ==>
      var (e, c) := LinkedPairs(exposures, groups, particles, m)[j];
      && e in groups && c < |groups[e].coordinates| && c < |groups[e].indices| && groups[e].indices[c] < |column|
      && groups[e].coordinates[c] in CoordIds(ParticlesOf(particles, e))
      && Linkers(acc, column, exposures, groups, particles, m).value[|acc| + j] ==
           ParticleSetLinker(column[groups[e].indices[c]], CoordIds(ParticlesOf(particles, e))[groups[e].coordinates[c]])
  {
    if m > 0 {
      LinkersExact(acc, column, exposures, groups, particles, m - 1);
      var e := exposures[m - 1];
      if e in groups {
        var ls := Linkers(acc, column, exposures, groups, particles, m - 1).value;
        var coords := CoordIds(ParticlesOf(particles, e));
        var g := groups[e];
        GroupLinkersExact(ls, column, coords, g, |g.coordinates|);
        var r := Linkers(acc, column, exposures, groups, particles, m).value;
        var front := LinkedPairs(exposures, groups, particles, m - 1);
        var linked := Linked(coords, g, |g.coordinates|);
        var pairs := LinkedPairs(exposures, groups, particles, m);
        assert pairs == front + seq(|linked|, q requires 0 <= q < |linked| => (e, linked[q]));
        assert r[..|acc|] == r[..|ls|][..|acc|];
        forall j | 0 <= j < |pairs|
          ensures var (e', c) := pairs[j];
            && e' in groups && c < |groups[e'].coordinates| && c < |groups[e'].indices| && groups[e'].indices[c] < |column|
            && groups[e'].coordinates[c] in CoordIds(ParticlesOf(particles, e'))
            && r[|acc| + j] == ParticleSetLinker(column[groups[e'].indices[c]], CoordIds(ParticlesOf(particles, e'))[groups[e'].coordinates[c]])
        {
          if j < |front| {
            assert pairs[j] == front[j];
            assert r[|acc| + j] == ls[|acc| + j];
          } else {
            var q := j - |front|;
            assert pairs[j] == (e, linked[q]);
            assert |acc| + j == |ls| + q;
          }
        }
      }
    }
  }

  /** A linker fails only on a row past the end of the set-id column. */
  lemma {:induction false} LinkersFail(acc: seq<Entry>, column: seq<Cell>, exposures: seq<string>, groups: Groups,
                                       particles: seq<ParticleRow>, m: nat)
    requires m <= |exposures|
    requires Linkers(acc, column, exposures, groups, particles, m).Err?
    ensures Linkers(acc, column, exposures, groups, particles, m).error == IndexError
  {
    if m > 0 && Linkers(acc, column, exposures, groups, particles, m - 1).Err? {
      LinkersFail(acc, column, exposures, groups, particles, m - 1);
    } else if m > 0 {
      var ls := Linkers(acc, column, exposures, groups, particles, m - 1).value;
      var e := exposures[m - 1];
      GroupLinkersFail(ls, column, CoordIds(ParticlesOf(particles, e)), groups[e], |groups[e].coordinates|);
    }
  }

  lemma {:induction false} GroupLinkersFail(acc: seq<Entry>, column: seq<Cell>, coords: map<(Cell, Cell), int>, g: Group, n: nat)
    requires n <= |g.coordinates|
    requires GroupLinkers(acc, column, coords, g, n).Err?
    ensures GroupLinkers(acc, column, coords, g, n).error == IndexError
  {
    if n > 0 && GroupLinkers(acc, column, coords, g, n - 1).Err? {
      GroupLinkersFail(acc, column, coords, g, n - 1);
    }
  }

  /** With an instance holding every key for each id, one key's infos are
      found for every id, in `order`. */
  lemma {:induction false} KeyInfosTotal(acc: seq<Entry>, key: string, order: seq<Cell>, source: string,
                                         inst: map<Cell, map<string, real>>, n: nat)
    requires n <= |order|
    requires forall si :: si in order ==> si in inst && key in inst[si]
    ensures KeyInfos(acc, key, order, source, inst, n).Ok?
    ensures var r := KeyInfos(acc, key, order, source, inst, n).value;
      && |r| == |acc| + n && r[..|acc|] == acc
      && forall j :: 0 <= j < n ==> r[|acc| + j] == ParticleSetInfo(order[j], source, key, inst[order[j]][key])
  {
    if n > 0 {
      KeyInfosTotal(acc, key, order, source, inst, n - 1);
      var r := KeyInfos(acc, key, order, source, inst, n - 1).value;
      assert KeyInfos(acc, key, order, source, inst, n).value == r + [ParticleSetInfo(order[n - 1], source, key, inst[order[n - 1]][key])];
    }
  }

  /** With an instance holding every extra key for each id, the set infos
      never raise and number one per key and id. */
  lemma {:induction false} SetInfosTotal(acc: seq<Entry>, extra: seq<string>, order: seq<Cell>, source: string,
                                         inst: map<Cell, map<string, real>>, m: nat)
    requires m <= |extra|
    requires forall si, k :: si in order && k in extra ==> si in inst && k in inst[si]
    ensures SetInfos(acc, extra, order, source, inst, m).Ok?
    ensures |SetInfos(acc, extra, order, source, inst, m).value| == |acc| + m * |order|
  {
    if m > 0 {
      SetInfosTotal(acc, extra, order, source, inst, m - 1);
      var r := SetInfos(acc, extra, order, source, inst, m - 1).value;
      assert extra[m - 1] in extra;
      KeyInfosTotal(r, extra[m - 1], order, source, inst, |order|);
      assert m * |order| == (m - 1) * |order| + |order|;
    }
  }

  /** When there are extra keys and the instances are built, every id of the
      column has one holding every extra key. */
  lemma InstancesCover(data: Block, extra: seq<string>, column: seq<Cell>, order: seq<Cell>, parse: string -> Option<real>)
    requires Enumerates(order, column)
    requires forall k :: k in extra ==> exists j :: 0 <= j < |data| && data[j].0 == k
    requires Instances(data, extra, column, order, parse, |order|).Ok?
    ensures var inst := Instances(data, extra, column, order, parse, |order|).value;
      forall si, k :: si in order && k in extra ==> si in inst && k in inst[si]
  {
    var inst := Instances(data, extra, column, order, parse, |order|).value;
    forall si, k | si in order && k in extra
      ensures si in inst && k in inst[si]
    {
      assert order[..|order|] == order;
      InstancesFirstRow(data, extra, column, order, parse, |order|, si);
      InstanceMeaning(data, extra, Find(column, si).value, parse, |data|, k);
    }
  }

  /** `set_instances[si][k]` never raises: a KeyError out of
      `insert_particle_set` comes from a missing column. */
  lemma InsertSetKeyError(data: Block, setName: string, setIdTag: string, exposureTag: string, xTag: string, yTag: string,
                          source: string, known: seq<string>, particles: seq<ParticleRow>, stem: Cell -> string,
                          parse: string -> Option<real>, order: seq<Cell>)
    requires Lookup(data, setIdTag).Some? ==> Enumerates(order, Lookup(data, setIdTag).value)
    requires InsertSetOutcome(data, setName, setIdTag, exposureTag, xTag, yTag, source, known, particles, stem, parse, order).1 == Raised(KeyError)
    ensures Lookup(data, setIdTag).None? || StructureParticles(data, known, exposureTag, xTag, yTag, stem) == Err(KeyError)
  {
    if Lookup(data, setIdTag).Some? && StructureParticles(data, known, exposureTag, xTag, yTag, stem).Ok? {
      var column := Lookup(data, setIdTag).value;
      var groups := StructureParticles(data, known, exposureTag, xTag, yTag, stem).value;
      var extra := ExtraKeys(data, [exposureTag, xTag, yTag, setIdTag]);
      var instances := if |extra| > 0 then Instances(data, extra, column, order, parse, |order|) else Ok(map[]);
      if instances.Ok? {
        var linkers := Linkers([], column, known, groups, particles, |known|);
        if linkers.Err? {
          LinkersFail([], column, known, groups, particles, |known|);
        } else if |extra| > 0 {
          InstancesCover(data, extra, column, order, parse);
          SetInfosTotal([], extra, order, source, instances.value, |extra|);
        }
      } else {
        InstancesFail(data, extra, column, order, parse, |order|);
      }
    }
  }

  /** Building the instances fails only on a short column or a cell that is
      not a number. */
  lemma {:induction false} InstancesFail(data: Block, extra: seq<string>, column: seq<Cell>, order: seq<Cell>,
                                         parse: string -> Option<real>, n: nat)
    requires n <= |order|
    requires Instances(data, extra, column, order, parse, n).Err?
    ensures Instances(data, extra, column, order, parse, n).error in {IndexError, ValueError}
  {
    if n > 0 && Instances(data, extra, column, order, parse, n - 1).Err? {
      InstancesFail(data, extra, column, order, parse, n - 1);
    } else if n > 0 {
      InstanceFail(data, extra, Find(column, order[n - 1]).value, parse, |data|);
    }
  }

  lemma {:induction false} InstanceFail(data: Block, extra: seq<string>, row: nat, parse: string -> Option<real>, n: nat)
    requires n <= |data|
    requires Instance(data, extra, row, parse, n).Err?
    ensures Instance(data, extra, row, parse, n).error in {IndexError, ValueError}
  {
    if n > 0 && Instance(data, extra, row, parse, n - 1).Err? {
      InstanceFail(data, extra, row, parse, n - 1);
    }
  }

  // ---------------------------------------------------------------------
  // An error stops each loop: it is the outcome for every longer prefix.

  lemma {:induction false} InstanceRaiseOnward(data: Block, extra: seq<string>, row: nat, parse: string -> Option<real>, n: nat, m: nat)
    requires n <= m <= |data|
    requires Instance(data, extra, row, parse, n).Err?
    ensures Instance(data, extra, row, parse, m) == Instance(data, extra, row, parse, n)
    decreases m - n
  {
    if n < m {
      InstanceRaiseOnward(data, extra, row, parse, n + 1, m);
    }
  }

  lemma {:induction false} InstancesRaiseOnward(data: Block, extra: seq<string>, column: seq<Cell>, order: seq<Cell>,
                                                parse: string -> Option<real>, n: nat, m: nat)
    requires n <= m <= |order|
    requires Instances(data, extra, column, order, parse, n).Err?
    ensures Instances(data, extra, column, order, parse, m) == Instances(data, extra, column, order, parse, n)
    decreases m - n
  {
    if n < m {
      InstancesRaiseOnward(data, extra, column, order, parse, n + 1, m);
    }
  }

  lemma {:induction false} GroupLinkersRaiseOnward(acc: seq<Entry>, column: seq<Cell>, coords: map<(Cell, Cell), int>, g: Group,
                                                   n: nat, m: nat)
    requires n <= m <= |g.coordinates|
    requires GroupLinkers(acc, column, coords, g, n).Err?
    ensures GroupLinkers(acc, column, coords, g, m) == GroupLinkers(acc, column, coords, g, n)
    decreases m - n
  {
    if n < m {
      GroupLinkersRaiseOnward(acc, column, coords, g, n + 1, m);
    }
  }

  lemma {:induction false} LinkersRaiseOnward(acc: seq<Entry>, column: seq<Cell>, exposures: seq<string>, groups: Groups,
                                              particles: seq<ParticleRow>, n: nat, m: nat)
    requires n <= m <= |exposures|
    requires Linkers(acc, column, exposures, groups, particles, n).Err?
    ensures Linkers(acc, column, exposures, groups, particles, m) == Linkers(acc, column, exposures, groups, particles, n)
    decreases m - n
  {
    if n < m {
      LinkersRaiseOnward(acc, column, exposures, groups, particles, n + 1, m);
    }
  }

  lemma {:induction false} KeyInfosRaiseOnward(acc: seq<Entry>, key: string, order: seq<Cell>, source: string,
                                               inst: map<Cell, map<string, real>>, n: nat, m: nat)
    requires n <= m <= |order|
    requires KeyInfos(acc, key, order, source, inst, n).Err?
    ensures KeyInfos(acc, key, order, source, inst, m) == KeyInfos(acc, key, order, source, inst, n)
    decreases m - n
  {
    if n < m {
      KeyInfosRaiseOnward(acc, key, order, source, inst, n + 1, m);
    }
  }

  lemma {:induction false} SetInfosRaiseOnward(acc: seq<Entry>, extra: seq<string>, order: seq<Cell>, source: string,
                                               inst: map<Cell, map<string, real>>, n: nat, m: nat)
    requires n <= m <= |extra|
    requires SetInfos(acc, extra, order, source, inst, n).Err?
    ensures SetInfos(acc, extra, order, source, inst, m) == SetInfos(acc, extra, order, source, inst, n)
    decreases m - n
  {
    if n < m {
      SetInfosRaiseOnward(acc, extra, order, source, inst, n + 1, m);
    }
  }

  // ---------------------------------------------------------------------
  // The loops of insert_particle_set.

  /** `for i, s in enumerate(column): if s == x: ... break`. */
  method FindFirst(column: seq<Cell>, x: Cell) returns (r: Option<nat>)
    ensures r == Find(column, x)
  {
    var i := 0;
    while i < |column|
      invariant 0 <= i <= |column|
      invariant forall j :: 0 <= j < i ==> column[j] != x
    {
      if column[i] == x {
        break;
      }
      i := i + 1;
    }
    if i < |column| {
      r := Some(i);
    } else {
      r := None;
    }
    FindUnique(column, x, r);
  }

  /** Find is the only answer with its contract. */
  lemma FindUnique(column: seq<Cell>, x: Cell, r: Option<nat>)
    requires r.None? <==> x !in column
    requires r.Some? ==> r.value < |column| && column[r.value] == x && forall j :: 0 <= j < r.value ==> column[j] != x
    ensures r == Find(column, x)
  {
    var f := Find(column, x);
    if r.Some? && f.Some? {
      assert !(r.value < f.value) && !(f.value < r.value);
    }
  }

  /** The dict comprehension of one set instance. */
  method BuildInstance(data: Block, extra: seq<string>, row: nat, parse: string -> Option<real>) returns (r: Result<map<string, real>>)
    ensures r == Instance(data, extra, row, parse, |data|)
  {
    var m := map[];
    for n := 0 to |data|
      invariant Instance(data, extra, row, parse, n) == Ok(m)
    {
      var (k, v) := data[n];
      if k in extra {
        if row >= |v| {
          InstanceRaiseOnward(data, extra, row, parse, n + 1, |data|);
          return Err(IndexError);
        }
        var f := ToFloat(parse, v[row]);
        if f.Err? {
          InstanceRaiseOnward(data, extra, row, parse, n + 1, |data|);
          return Err(f.error);
        }
        m := m[k := f.value];
      }
    }
    return Ok(m);
  }

  /** One more set id: skipped when no row carries it, otherwise its
      instance is added or its exception raised. */
  lemma InstancesStep(data: Block, extra: seq<string>, column: seq<Cell>, order: seq<Cell>, parse: string -> Option<real>,
                      n: nat, inst: map<Cell, map<string, real>>)
    requires n < |order| && Instances(data, extra, column, order, parse, n) == Ok(inst)
    ensures Find(column, order[n]).None? ==> Instances(data, extra, column, order, parse, n + 1) == Ok(inst)
    ensures Find(column, order[n]).Some? ==>
      var m := Instance(data, extra, Find(column, order[n]).value, parse, |data|);
      && (m.Err? ==> Instances(data, extra, column, order, parse, n + 1) == Err(m.error))
      && (m.Ok? ==> Instances(data, extra, column, order, parse, n + 1) == Ok(inst[order[n] := m.value]))
  {
  }

  /** `for si in set_ids: ...`, filling `set_instances`. */
  method BuildInstances(data: Block, extra: seq<string>, column: seq<Cell>, order: seq<Cell>, parse: string -> Option<real>)
    returns (r: Result<map<Cell, map<string, real>>>)
    ensures r == Instances(data, extra, column, order, parse, |order|)
  {
    var inst := map[];
    for n := 0 to |order|
      invariant Instances(data, extra, column, order, parse, n) == Ok(inst)
    {
      var next := AddInstance(data, extra, column, order, parse, n, inst);
      if next.Err? {
        InstancesRaiseOnward(data, extra, column, order, parse, n + 1, |order|);
        return next;
      }
      inst := next.value;
    }
    return Ok(inst);
  }

  /** The body of the set-id loop for `order[n]`. */
  method AddInstance(data: Block, extra: seq<string>, column: seq<Cell>, order: seq<Cell>, parse: string -> Option<real>,
                     n: nat, inst: map<Cell, map<string, real>>)
    returns (r: Result<map<Cell, map<string, real>>>)
    requires n < |order| && Instances(data, extra, column, order, parse, n) == Ok(inst)
    ensures r == Instances(data, extra, column, order, parse, n + 1)
  {
    var si := order[n];
    var i := FindFirst(column, si);
    InstancesStep(data, extra, column, order, parse, n, inst);
    if i.None? {
      return Ok(inst);
    }
    var m := BuildInstance(data, extra, i.value, parse);
    if m.Err? {
      return Err(m.error);
    }
    return Ok(inst[si := m.value]);
  }

  /** The loop over one group's coordinates. */
  method GroupLinkerLoop(acc: seq<Entry>, column: seq<Cell>, coords: map<(Cell, Cell), int>, g: Group) returns (r: Result<seq<Entry>>)
    ensures r == GroupLinkers(acc, column, coords, g, |g.coordinates|)
  {
    var linkers := acc;
    for i := 0 to |g.coordinates|
      invariant GroupLinkers(acc, column, coords, g, i) == Ok(linkers)
    {
      var particle := g.coordinates[i];
      if particle in coords && coords[particle] != 0 {
        if i >= |g.indices| || g.indices[i] >= |column| {
          GroupLinkersRaiseOnward(acc, column, coords, g, i + 1, |g.coordinates|);
          return Err(IndexError);
        }
        linkers := linkers + [ParticleSetLinker(column[g.indices[i]], coords[particle])];
      }
    }
    return Ok(linkers);
  }

  /** `for exposure in exposures: ...`, collecting the linkers. */
  method LinkerLoop(column: seq<Cell>, exposures: seq<string>, groups: Groups, particles: seq<ParticleRow>)
    returns (r: Result<seq<Entry>>)
    ensures r == Linkers([], column, exposures, groups, particles, |exposures|)
  {
    var linkers := [];
    for m := 0 to |exposures|
      invariant Linkers([], column, exposures, groups, particles, m) == Ok(linkers)
    {
      var exposure := exposures[m];
      if exposure in groups {
        var g := GroupLinkerLoop(linkers, column, CoordIds(ParticlesOf(particles, exposure)), groups[exposure]);
        if g.Err? {
          LinkersRaiseOnward([], column, exposures, groups, particles, m + 1, |exposures|);
          return Err(g.error);
        }
        linkers := g.value;
      }
    }
    return Ok(linkers);
  }

  /** The inner loop of the set infos, over the ids for one key. */
  method KeyInfoLoop(acc: seq<Entry>, key: string, order: seq<Cell>, source: string, inst: map<Cell, map<string, real>>)
    returns (r: Result<seq<Entry>>)
    ensures r == KeyInfos(acc, key, order, source, inst, |order|)
  {
    var infos := acc;
    for n := 0 to |order|
      invariant KeyInfos(acc, key, order, source, inst, n) == Ok(infos)
    {
      var si := order[n];
      if si !in inst || key !in inst[si] {
        KeyInfosRaiseOnward(acc, key, order, source, inst, n + 1, |order|);
        return Err(KeyError);
      }
      infos := infos + [ParticleSetInfo(si, source, key, inst[si][key])];
    }
    return Ok(infos);
  }

  /** The outer loop of the set infos, over the extra keys. */
  method SetInfoLoop(extra: seq<string>, order: seq<Cell>, source: string, inst: map<Cell, map<string, real>>)
    returns (r: Result<seq<Entry>>)
    ensures r == SetInfos([], extra, order, source, inst, |extra|)
  {
    var infos := [];
    for m := 0 to |extra|
      invariant SetInfos([], extra, order, source, inst, m) == Ok(infos)
    {
      var k := KeyInfoLoop(infos, extra[m], order, source, inst);
      if k.Err? {
        SetInfosRaiseOnward([], extra, order, source, inst, m + 1, |extra|);
        return Err(k.error);
      }
      infos := k.value;
    }
    return Ok(infos);
  }

  /** `insert_particle_set(data, set_name, set_id_tag, exposure_tag, x_tag,
      y_tag, star_file_path, extractor)`; `order` is the iteration order of
      `set(data[set_id_tag])`. */
  method InsertParticleSet(data: Block, setName: string, setIdTag: string, exposureTag: string, xTag: string, yTag: string,
                           starFilePath: string, extractor: Extractor, stem: Cell -> string, parse: string -> Option<real>,
                           order: seq<Cell>) returns (status: Status)
    requires Lookup(data, setIdTag).Some? ==> Enumerates(order, Lookup(data, setIdTag).value)
    modifies extractor
    ensures extractor.atlasId == old(extractor.atlasId)
    ensures var (calls, outcome) := InsertSetOutcome(data, setName, setIdTag, exposureTag, xTag, yTag, starFilePath,
                                                     old(extractor.AllExposures()), extractor.particles, stem, parse, order);
      extractor.puts == old(extractor.puts) + calls && status == outcome
  {
    var extraKeys := ExtraKeys(data, [exposureTag, xTag, yTag, setIdTag]);
    var setIds := Lookup(data, setIdTag);
    if setIds.None? {
      return Raised(KeyError);
    }
    status := StoreSets(extractor, data, setName, setIds.value, extraKeys, exposureTag, xTag, yTag, starFilePath, stem, parse, order);
  }

  /** The part of `insert_particle_set` from the set-id column on. */
  method StoreSets(extractor: Extractor, data: Block, setName: string, column: seq<Cell>, extra: seq<string>, exposureTag: string,
                   xTag: string, yTag: string, source: string, stem: Cell -> string, parse: string -> Option<real>,
                   order: seq<Cell>) returns (status: Status)
    modifies extractor
    ensures extractor.atlasId == old(extractor.atlasId)
    ensures var (calls, outcome) := SetsOutcome(data, setName, column, extra, exposureTag, xTag, yTag, source,
                                                old(extractor.AllExposures()), extractor.particles, stem, parse, order);
      extractor.puts == old(extractor.puts) + calls && status == outcome
  {
    extractor.Store(Put(SetEntries(setName, order)));
    var exposures := extractor.AllExposures();
    var structured := StructureParticleData(data, exposures, exposureTag, xTag, yTag, stem);
    if structured.Err? {
      return Raised(structured.error);
    }
    status := LinkAndDescribe(extractor, data, extra, column, structured.value, order, source, exposures, parse);
  }

  /** The part of `insert_particle_set` after the grouping: the instances,
      the linkers and the set infos. */
  method LinkAndDescribe(extractor: Extractor, data: Block, extra: seq<string>, column: seq<Cell>, groups: Groups, order: seq<Cell>,
                         source: string, exposures: seq<string>, parse: string -> Option<real>) returns (status: Status)
    modifies extractor
    ensures extractor.atlasId == old(extractor.atlasId)
    ensures var (calls, outcome) := LinkOutcome(data, extra, column, groups, order, source, exposures, extractor.particles, parse);
      extractor.puts == old(extractor.puts) + calls && status == outcome
  {
    var setInstances := map[];
    if |extra| > 0 {
      var built := BuildInstances(data, extra, column, order, parse);
      if built.Err? {
        return Raised(built.error);
      }
      setInstances := built.value;
    }
    var linkers := LinkerLoop(column, exposures, groups, extractor.particles);
    if linkers.Err? {
      return Raised(linkers.error);
    }
    if |linkers.value| > 0 {
      extractor.Store(Put(linkers.value));
    }
    var particleSetInfo := SetInfoLoop(extra, order, source, setInstances);
    if particleSetInfo.Err? {
      return Raised(particleSetInfo.error);
    }
    if |particleSetInfo.value| > 0 {
      extractor.Store(Put(particleSetInfo.value));
    }
    return Done;
  }
}
