/** The in-memory part of the statistics queries of
    src/cryotrace/data_model/extract.py: turning the rows a query returns into
    per-key series aligned with a foil hole's exposures, merging foil holes
    into a grid square, and the small lookups over query results
    (`get_particle_id`, `set_atlas_id`, `get_tile`). The database queries
    themselves are inputs: each operation receives the rows its query yields,
    in the order the query yields them. */
module Extract {
  import opened Common

  /** What `_parse_particle_data` and the exposure-key loop read from one
      result row: the exposure name of the row's exposure entity
      (`er[exposure_index].exposure_name`, `er[0].exposure_name`) and the key
      and value of its info entity (`er[info_index]`, `er[-1]`). */
  datatype InfoRow = InfoRow(exposureName: string, key: string, value: real)

  /** An entry of a statistics series: a float, or the NaN that `np.mean` of
      an empty list gives. */
  datatype Stat = Value(v: real) | NotANumber

  /** key -> series. */
  type Stats = map<string, seq<Stat>>

  // ---------------------------------------------------------------------
  // Selecting a key's values for one exposure.

  /** The values of the rows for key k and exposure e, in row order:
      `[er.value for er in data if er.key == k and er.exposure_name == e]`. */
  function Matching(data: seq<InfoRow>, k: string, e: string): seq<real>
  {
    if |data| == 0 then []
    else
      var last := data[|data| - 1];
      Matching(data[..|data| - 1], k, e) + (if last.key == k && last.exposureName == e then [last.value] else [])
  }

  /** A row matches when it carries key k for exposure e. */
  predicate Matches(r: InfoRow, k: string, e: string)
  {
    r.key == k && r.exposureName == e
  }

  /** Matching keeps exactly the matching rows' values: v is selected iff some
      row for key k and exposure e carries v. */
  lemma {:induction false} MatchingMembers(data: seq<InfoRow>, k: string, e: string)
    ensures forall v :: v in Matching(data, k, e) <==> exists j :: 0 <= j < |data| && Matches(data[j], k, e) && data[j].value == v
    ensures |Matching(data, k, e)| == 0 <==> forall j :: 0 <= j < |data| ==> !Matches(data[j], k, e)
  {
    if |data| > 0 {
      var front := data[..|data| - 1];
      MatchingMembers(front, k, e);
      assert forall j :: 0 <= j < |front| ==> front[j] == data[j];
    }
  }

  /** The first selected value is the value of the first matching row. */
  lemma {:induction false} MatchingFirst(data: seq<InfoRow>, k: string, e: string)
    requires |Matching(data, k, e)| > 0
    ensures exists j :: (0 <= j < |data| && Matches(data[j], k, e) && Matching(data, k, e)[0] == data[j].value &&
      (forall i :: 0 <= i < j ==> !Matches(data[i], k, e)))
  {
    var front := data[..|data| - 1];
    assert forall j :: 0 <= j < |front| ==> front[j] == data[j];
    if |Matching(front, k, e)| > 0 {
      MatchingFirst(front, k, e);
      var j :| 0 <= j < |front| && Matches(front[j], k, e) && Matching(front, k, e)[0] == front[j].value &&
        forall i :: 0 <= i < j ==> !Matches(front[i], k, e);
      assert Matching(data, k, e)[0] == Matching(front, k, e)[0];
    } else {
      MatchingMembers(front, k, e);
      assert Matching(data, k, e) == [data[|data| - 1].value];
    }
  }

  // ---------------------------------------------------------------------
  // np.mean.

  function Sum(vs: seq<real>): real
  {
    if |vs| == 0 then 0.0 else Sum(vs[..|vs| - 1]) + vs[|vs| - 1]
  }

  /** `np.mean(vs)`: NaN exactly for the empty list. */
  function Mean(vs: seq<real>): (m: Stat)
    ensures m == NotANumber <==> |vs| == 0
  {
    if |vs| == 0 then NotANumber else Value(Sum(vs) / |vs| as real)
  }

  lemma {:induction false} SumBetween(vs: seq<real>, lo: real, hi: real)
    requires forall i :: 0 <= i < |vs| ==> lo <= vs[i] <= hi
    ensures |vs| as real * lo <= Sum(vs) <= |vs| as real * hi
  {
    if |vs| > 0 {
      var n := |vs|;
      SumBetween(vs[..n - 1], lo, hi);
      assert (n - 1) as real * lo + lo == n as real * lo;
      assert (n - 1) as real * hi + hi == n as real * hi;
    }
  }

  /** The mean of values within [lo, hi] lies within [lo, hi]. */
  lemma MeanBetween(vs: seq<real>, lo: real, hi: real)
    requires |vs| > 0
    requires forall i :: 0 <= i < |vs| ==> lo <= vs[i] <= hi
    ensures lo <= Mean(vs).v <= hi
  {
    SumBetween(vs, lo, hi);
    var n := |vs| as real;
    assert Sum(vs) / n * n == Sum(vs);
  }

  // ---------------------------------------------------------------------
  // _parse_particle_data.

  /** The values as series entries. */
  function Values(vs: seq<real>): (s: seq<Stat>)
    ensures |s| == |vs|
    ensures forall i :: 0 <= i < |vs| ==> s[i] == Value(vs[i])
  {
    if |vs| == 0 then [] else Values(vs[..|vs| - 1]) + [Value(vs[|vs| - 1])]
  }

  /** What one exposure contributes to key k's series: the mean of its values
      (appended), or all its values (extended). */
  function Contribution(data: seq<InfoRow>, k: string, e: string, avg: bool): seq<Stat>
  {
    if avg then [Mean(Matching(data, k, e))] else Values(Matching(data, k, e))
  }

  /** `stats[k]` after the loop over the exposures. */
  function ParticleSeries(data: seq<InfoRow>, k: string, exposures: seq<string>, avg: bool): seq<Stat>
  {
    if |exposures| == 0 then []
    else ParticleSeries(data, k, exposures[..|exposures| - 1], avg) + Contribution(data, k, exposures[|exposures| - 1], avg)
  }

  /** `_parse_particle_data(keys, data, exposures, avg_particles=avg)`. */
  function ParticleStats(keys: seq<string>, data: seq<InfoRow>, exposures: seq<string>, avg: bool): Stats
  {
    map k | k in keys :: ParticleSeries(data, k, exposures, avg)
  }

  /** Averaged, a series has one entry per exposure, the mean of that
      exposure's values for the key, NaN where it has none. */
  lemma {:induction false} AveragedSeries(data: seq<InfoRow>, k: string, exposures: seq<string>)
    ensures |ParticleSeries(data, k, exposures, true)| == |exposures|
    ensures forall i :: 0 <= i < |exposures| ==> ParticleSeries(data, k, exposures, true)[i] == Mean(Matching(data, k, exposures[i]))
  {
    if |exposures| > 0 {
      var front := exposures[..|exposures| - 1];
      AveragedSeries(data, k, front);
      assert forall i :: 0 <= i < |front| ==> front[i] == exposures[i];
    }
  }

  /** Not averaged, a series holds only values, and v occurs in it exactly
      when some row for the key and for a LISTED exposure carries v: rows of
      other exposures are left out. */
  lemma {:induction false} ConcatenatedSeries(data: seq<InfoRow>, k: string, exposures: seq<string>)
    ensures forall s :: s in ParticleSeries(data, k, exposures, false) ==> s.Value?
    ensures forall v :: Value(v) in ParticleSeries(data, k, exposures, false) <==>
      exists i, j :: 0 <= i < |exposures| && 0 <= j < |data| && Matches(data[j], k, exposures[i]) && data[j].value == v
  {
    if |exposures| > 0 {
      var n := |exposures|;
      var front := exposures[..n - 1];
      ConcatenatedSeries(data, k, front);
      MatchingMembers(data, k, exposures[n - 1]);
      var vs := Matching(data, k, exposures[n - 1]);
      assert forall s :: s in Values(vs) <==> exists i :: 0 <= i < |vs| && s == Value(vs[i]);
      assert forall i :: 0 <= i < |front| ==> front[i] == exposures[i];
      forall v | Value(v) in ParticleSeries(data, k, exposures, false)
        ensures exists i, j :: 0 <= i < n && 0 <= j < |data| && Matches(data[j], k, exposures[i]) && data[j].value == v
      {
        if Value(v) !in ParticleSeries(data, k, front, false) {
          assert v in vs;
        }
      }
      forall v | exists i, j :: 0 <= i < n && 0 <= j < |data| && Matches(data[j], k, exposures[i]) && data[j].value == v
        ensures Value(v) in ParticleSeries(data, k, exposures, false)
      {
        var i, j :| 0 <= i < n && 0 <= j < |data| && Matches(data[j], k, exposures[i]) && data[j].value == v;
        if i == n - 1 {
          assert v in vs;
        }
      }
    }
  }

  /** The indices of the rows that Matching selects, in row order. */
  function MatchingRows(data: seq<InfoRow>, k: string, e: string): (rows: seq<nat>)
    ensures forall m :: 0 <= m < |rows| ==> rows[m] < |data|
  {
    if |data| == 0 then []
    else
      MatchingRows(data[..|data| - 1], k, e) + (if Matches(data[|data| - 1], k, e) then [|data| - 1] else [])
  }

  /** Matching lists, in order, the values of exactly the rows that match:
      its m-th value is that of row `MatchingRows(...)[m]`, these indices
      rise strictly, each names a matching row, and every matching row is
      among them. */
  lemma {:induction false} MatchingRowsMeaning(data: seq<InfoRow>, k: string, e: string)
    ensures var rows := MatchingRows(data, k, e);
      && |rows| == |Matching(data, k, e)|
      && (forall m :: 0 <= m < |rows| ==> Matches(data[rows[m]], k, e) && Matching(data, k, e)[m] == data[rows[m]].value)
      && (forall m, m' :: 0 <= m < m' < |rows| ==> rows[m] < rows[m'])
      && (forall j :: 0 <= j < |data| && Matches(data[j], k, e) ==> j in rows)
  {
    if |data| > 0 {
      var n := |data|;
      var front := data[..n - 1];
      MatchingRowsMeaning(front, k, e);
      assert forall j :: 0 <= j < |front| ==> front[j] == data[j];
    }
  }

  /** How many values the listed exposures contribute to key k's series:
      the sum over the exposures of the number of matching rows. */
  function MatchCount(data: seq<InfoRow>, k: string, exposures: seq<string>): nat
  {
    if |exposures| == 0 then 0
    else MatchCount(data, k, exposures[..|exposures| - 1]) + |Matching(data, k, exposures[|exposures| - 1])|
  }

  /** Not averaged, a series has one entry per matching row of the listed
      exposures. */
  lemma {:induction false} ConcatenatedLength(data: seq<InfoRow>, k: string, exposures: seq<string>)
    ensures |ParticleSeries(data, k, exposures, false)| == MatchCount(data, k, exposures)
  {
    if |exposures| > 0 {
      ConcatenatedLength(data, k, exposures[..|exposures| - 1]);
    }
  }

  /** Not averaged, exposure i's block of the series, which starts after the
      values of the exposures before it, is exactly its own values in row
      order. With ConcatenatedLength, the series is these blocks end to end. */
  lemma {:induction false} ConcatenatedBlock(data: seq<InfoRow>, k: string, exposures: seq<string>, i: nat)
    requires i < |exposures|
    ensures MatchCount(data, k, exposures[..i]) <= MatchCount(data, k, exposures[..i + 1]) <= |ParticleSeries(data, k, exposures, false)|
    ensures ParticleSeries(data, k, exposures, false)[MatchCount(data, k, exposures[..i])..MatchCount(data, k, exposures[..i + 1])] ==
      Values(Matching(data, k, exposures[i]))
    decreases |exposures|, 1
  {
    if i < |exposures| - 1 {
      EarlierBlock(data, k, exposures, i);
    } else {
      LastBlock(data, k, exposures);
    }
  }

  /** The block of an exposure before the last lies in the series of the
      exposures before the last. */
  lemma {:induction false} EarlierBlock(data: seq<InfoRow>, k: string, exposures: seq<string>, i: nat)
    requires i < |exposures| - 1
    ensures MatchCount(data, k, exposures[..i]) <= MatchCount(data, k, exposures[..i + 1]) <= |ParticleSeries(data, k, exposures, false)|
    ensures ParticleSeries(data, k, exposures, false)[MatchCount(data, k, exposures[..i])..MatchCount(data, k, exposures[..i + 1])] ==
      Values(Matching(data, k, exposures[i]))
    decreases |exposures|, 0
  {
    var front := exposures[..|exposures| - 1];
    assert front[i] == exposures[i];
    assert front[..i] == exposures[..i];
    assert front[..i + 1] == exposures[..i + 1];
    ConcatenatedBlock(data, k, front, i);
    ConcatenatedLength(data, k, front);
    PrefixSlice(ParticleSeries(data, k, front, false), Values(Matching(data, k, exposures[|exposures| - 1])),
      MatchCount(data, k, front[..i]), MatchCount(data, k, front[..i + 1]));
  }

  /** The last exposure's block is the end of the series. */
  lemma {:induction false} LastBlock(data: seq<InfoRow>, k: string, exposures: seq<string>)
    requires |exposures| > 0
    ensures var i := |exposures| - 1;
      && MatchCount(data, k, exposures[..i]) <= MatchCount(data, k, exposures[..i + 1]) <= |ParticleSeries(data, k, exposures, false)|
      && ParticleSeries(data, k, exposures, false)[MatchCount(data, k, exposures[..i])..MatchCount(data, k, exposures[..i + 1])] ==
        Values(Matching(data, k, exposures[i]))
  {
    var front := exposures[..|exposures| - 1];
    assert exposures[..|exposures|] == exposures;
    ConcatenatedLength(data, k, front);
    SuffixSlice(ParticleSeries(data, k, front, false), Values(Matching(data, k, exposures[|exposures| - 1])));
  }

  lemma PrefixSlice(head: seq<Stat>, tail: seq<Stat>, a: nat, b: nat)
    requires a <= b <= |head|
    ensures (head + tail)[a..b] == head[a..b]
  {
  }

  lemma SuffixSlice(head: seq<Stat>, tail: seq<Stat>)
    ensures (head + tail)[|head|..|head| + |tail|] == tail
  {
  }

  /** The inner loop of `_parse_particle_data`: key k's list, built exposure
      by exposure. */
  method ParseSeries(data: seq<InfoRow>, k: string, exposures: seq<string>, avg: bool) returns (series: seq<Stat>)
    ensures series == ParticleSeries(data, k, exposures, avg)
  {
    series := [];
    for ei := 0 to |exposures|
      invariant series == ParticleSeries(data, k, exposures[..ei], avg)
    {
      assert exposures[..ei + 1][..ei] == exposures[..ei];
      var selected := Matching(data, k, exposures[ei]);
      if avg {
        series := series + [Mean(selected)];
      } else {
        series := series + Values(selected);
      }
    }
    assert exposures[..|exposures|] == exposures;
  }

  /** `_parse_particle_data`: for every key a fresh list, then for every
      exposure the mean of its matching values appended, or the values
      themselves extended. */
  method ParseParticleData(keys: seq<string>, data: seq<InfoRow>, exposures: seq<string>, avg: bool) returns (stats: Stats)
    ensures stats == ParticleStats(keys, data, exposures, avg)
  {
    stats := map[];
    for ki := 0 to |keys|
      invariant forall k :: k in stats <==> k in keys[..ki]
      invariant forall k :: k in stats ==> stats[k] == ParticleSeries(data, k, exposures, avg)
    {
      var k := keys[ki];
      var series := ParseSeries(data, k, exposures, avg);
      stats := stats[k := series];
      assert keys[..ki + 1] == keys[..ki] + [k];
    }
    assert keys[..|keys|] == keys;
  }

  // ---------------------------------------------------------------------
  // get_foil_hole_stats_all.

  /** The first matching value of key k for exposure e, or 0 when none matches. */
  function FirstOrZero(results: seq<InfoRow>, k: string, e: string): Stat
  {
    var selected := Matching(results, k, e);
    if |selected| > 0 then Value(selected[0]) else Value(0.0)
  }

  /** The exposure-key series of key k: one entry per exposure. */
  function ExposureSeries(results: seq<InfoRow>, k: string, exposures: seq<string>): seq<Stat>
  {
    if |exposures| == 0 then []
    else ExposureSeries(results, k, exposures[..|exposures| - 1]) + [FirstOrZero(results, k, exposures[|exposures| - 1])]
  }

  /** Each exposure-key series has one entry per exposure: the value of the
      first row for that key and exposure, or 0 when there is none. */
  lemma {:induction false} ExposureSeriesEntries(results: seq<InfoRow>, k: string, exposures: seq<string>)
    ensures |ExposureSeries(results, k, exposures)| == |exposures|
    ensures forall i :: 0 <= i < |exposures| ==> ExposureSeries(results, k, exposures)[i] == FirstOrZero(results, k, exposures[i])
  {
    if |exposures| > 0 {
      var front := exposures[..|exposures| - 1];
      ExposureSeriesEntries(results, k, front);
      assert forall i :: 0 <= i < |front| ==> front[i] == exposures[i];
    }
  }

  /** FirstOrZero is the value of the first row for the key and exposure, and
      0 exactly when no row matches. */
  lemma FirstOrZeroMeaning(results: seq<InfoRow>, k: string, e: string)
    ensures (forall j :: 0 <= j < |results| ==> !Matches(results[j], k, e)) ==> FirstOrZero(results, k, e) == Value(0.0)
    ensures (exists j :: 0 <= j < |results| && Matches(results[j], k, e)) ==>
      exists j :: 0 <= j < |results| && Matches(results[j], k, e) && FirstOrZero(results, k, e) == Value(results[j].value) &&
        (forall i :: 0 <= i < j ==> !Matches(results[i], k, e))
  {
    MatchingMembers(results, k, e);
    if |Matching(results, k, e)| > 0 {
      MatchingFirst(results, k, e);
    }
  }

  /** No keys at all. */
  predicate NoKeys(exposureKeys: seq<string>, particleKeys: seq<string>, setKeys: seq<string>)
  {
    |exposureKeys| == 0 && |particleKeys| == 0 && |setKeys| == 0
  }

  /** `get_foil_hole_stats_all` on the rows its three queries return: nothing
      when no key is asked for; otherwise the exposure-key series, updated by
      the particle series and then by the particle-set series. */
  function FoilHoleStats(exposureKeys: seq<string>, particleKeys: seq<string>, setKeys: seq<string>,
                         exposures: seq<string>, exposureResults: seq<InfoRow>, particleResults: seq<InfoRow>,
                         setResults: seq<InfoRow>, avg: bool): Stats
  {
    if NoKeys(exposureKeys, particleKeys, setKeys) then map[]
    else
      ExposureKeyStats(exposureKeys, exposureResults, exposures)
      + (if |particleKeys| > 0 then ParticleStats(particleKeys, particleResults, exposures, avg) else map[])
      + (if |setKeys| > 0 then ParticleStats(setKeys, setResults, exposures, avg) else map[])
  }

  /** The foil hole's statistics hold exactly the requested keys; a key asked
      for as a particle-set key takes its particle-set series, else a particle
      key its particle series, else its exposure series. */
  lemma FoilHoleStatsKeys(exposureKeys: seq<string>, particleKeys: seq<string>, setKeys: seq<string>,
                          exposures: seq<string>, exposureResults: seq<InfoRow>, particleResults: seq<InfoRow>,
                          setResults: seq<InfoRow>, avg: bool, k: string)
    ensures var s := FoilHoleStats(exposureKeys, particleKeys, setKeys, exposures, exposureResults, particleResults, setResults, avg);
      && (k in s <==> k in exposureKeys || k in particleKeys || k in setKeys)
      && (k in setKeys ==> s[k] == ParticleSeries(setResults, k, exposures, avg))
      && (k !in setKeys && k in particleKeys ==> s[k] == ParticleSeries(particleResults, k, exposures, avg))
      && (k !in setKeys && k !in particleKeys && k in exposureKeys ==> s[k] == ExposureSeries(exposureResults, k, exposures))
  {
  }

  /** The inner loop over the exposures for one exposure key: the first
      matching value of each exposure, or 0. */
  method FirstValues(results: seq<InfoRow>, k: string, exposures: seq<string>) returns (series: seq<Stat>)
    ensures series == ExposureSeries(results, k, exposures)
  {
    series := [];
    for ei := 0 to |exposures|
      invariant series == ExposureSeries(results, k, exposures[..ei])
    {
      assert exposures[..ei + 1][..ei] == exposures[..ei];
      var selected := Matching(results, k, exposures[ei]);
      if |selected| > 0 {
        series := series + [Value(selected[0])];
      } else {
        series := series + [Value(0.0)];
      }
    }
    assert exposures[..|exposures|] == exposures;
  }

  /** The exposure-key series of every exposure key. */
  function ExposureKeyStats(exposureKeys: seq<string>, results: seq<InfoRow>, exposures: seq<string>): Stats
  {
    map k | k in exposureKeys :: ExposureSeries(results, k, exposures)
  }

  /** The loop over the exposure keys of `get_foil_hole_stats_all`. */
  method ExposureStats(exposureKeys: seq<string>, results: seq<InfoRow>, exposures: seq<string>) returns (stats: Stats)
    ensures stats == ExposureKeyStats(exposureKeys, results, exposures)
  {
    stats := map[];
    for ki := 0 to |exposureKeys|
      invariant forall k :: k in stats <==> k in exposureKeys[..ki]
      invariant forall k :: k in stats ==> stats[k] == ExposureSeries(results, k, exposures)
    {
      var k := exposureKeys[ki];
      var series := FirstValues(results, k, exposures);
      stats := stats[k := series];
      assert exposureKeys[..ki + 1] == exposureKeys[..ki] + [k];
    }
    assert exposureKeys[..|exposureKeys|] == exposureKeys;
  }

  /** `get_foil_hole_stats_all`: the early return for no keys, the loop over
      the exposure keys filling each exposure's first value or 0, then the
      `stats.update` with the parsed particle and particle-set rows. */
  method FoilHoleStatsAll(exposureKeys: seq<string>, particleKeys: seq<string>, setKeys: seq<string>,
                          exposures: seq<string>, exposureResults: seq<InfoRow>, particleResults: seq<InfoRow>,
                          setResults: seq<InfoRow>, avg: bool) returns (stats: Stats)
    ensures stats == FoilHoleStats(exposureKeys, particleKeys, setKeys, exposures, exposureResults, particleResults, setResults, avg)
  {
    if NoKeys(exposureKeys, particleKeys, setKeys) {
      return map[];
    }
    stats := ExposureStats(exposureKeys, exposureResults, exposures);
    var particleStats: Stats := map[];
    if |particleKeys| > 0 {
      particleStats := ParseParticleData(particleKeys, particleResults, exposures, avg);
    }
    var setStats: Stats := map[];
    if |setKeys| > 0 {
      setStats := ParseParticleData(setKeys, setResults, exposures, avg);
    }
    stats := stats + particleStats + setStats;
  }

  // ---------------------------------------------------------------------
  // get_grid_square_stats_all.

  /** foil hole's stats merged in: `stats[k][fh] = v` for each of its keys,
      creating `stats[k]` when missing. */
  function MergeOne(stats: map<string, map<string, seq<Stat>>>, fh: string, fhStats: Stats): map<string, map<string, seq<Stat>>>
  {
    map k | k in stats.Keys + fhStats.Keys ::
      if k in fhStats then (if k in stats then stats[k] else map[])[fh := fhStats[k]] else stats[k]
  }

  /** The merge of the first n foil holes. */
  function Merge(foilHoles: seq<string>, statsOf: string -> Stats, n: nat): map<string, map<string, seq<Stat>>>
    requires n <= |foilHoles|
  {
    if n == 0 then map[] else MergeOne(Merge(foilHoles, statsOf, n - 1), foilHoles[n - 1], statsOf(foilHoles[n - 1]))
  }

  /** `get_grid_square_stats_all`, given each foil hole's statistics: nothing
      when no key is asked for, else the merge over the grid square's foil holes. */
  function GridSquareStats(exposureKeys: seq<string>, particleKeys: seq<string>, setKeys: seq<string>,
                           foilHoles: seq<string>, statsOf: string -> Stats): map<string, map<string, seq<Stat>>>
  {
    if NoKeys(exposureKeys, particleKeys, setKeys) then map[] else Merge(foilHoles, statsOf, |foilHoles|)
  }

  /** After the merge, stats[k][fh] exists exactly when fh is one of the foil
      holes and its statistics have key k, and it is then that foil hole's series. */
  lemma {:induction false} MergeMeaning(foilHoles: seq<string>, statsOf: string -> Stats, n: nat, k: string, fh: string)
    requires n <= |foilHoles|
    ensures k in Merge(foilHoles, statsOf, n) <==> exists i :: 0 <= i < n && k in statsOf(foilHoles[i])
    ensures k in Merge(foilHoles, statsOf, n) ==>
      (fh in Merge(foilHoles, statsOf, n)[k] <==> exists i :: 0 <= i < n && foilHoles[i] == fh && k in statsOf(fh))
    ensures k in Merge(foilHoles, statsOf, n) && fh in Merge(foilHoles, statsOf, n)[k] ==>
      k in statsOf(fh) && Merge(foilHoles, statsOf, n)[k][fh] == statsOf(fh)[k]
  {
    if n > 0 {
      MergeMeaning(foilHoles, statsOf, n - 1, k, fh);
    }
  }

  /** The inner loop of `get_grid_square_stats_all`: one foil hole's
      statistics merged in, key by key. Dict iteration order does not matter,
      as distinct keys update distinct entries. */
  method MergeFoilHole(stats: map<string, map<string, seq<Stat>>>, fh: string, fhStats: Stats)
    returns (merged: map<string, map<string, seq<Stat>>>)
    ensures merged == MergeOne(stats, fh, fhStats)
  {
    merged := stats;
    var todo := fhStats.Keys;
    ghost var done: set<string> := {};
    while todo != {}
      invariant todo + done == fhStats.Keys && todo !! done
      invariant forall k :: k in merged <==> k in stats || k in done
      invariant forall k :: k in merged && k !in done ==> merged[k] == stats[k]
      invariant forall k :: k in done ==> merged[k] == (if k in stats then stats[k] else map[])[fh := fhStats[k]]
      decreases todo
    {
      var k :| k in todo;
      if k in merged {
        merged := merged[k := merged[k][fh := fhStats[k]]];
      } else {
        merged := merged[k := map[fh := fhStats[k]]];
      }
      todo := todo - {k};
      done := done + {k};
    }
  }

  /** `get_grid_square_stats_all`: for each foil hole, each (key, series) of
      its statistics goes to `stats[key][foil hole]`. */
  method GridSquareStatsAll(exposureKeys: seq<string>, particleKeys: seq<string>, setKeys: seq<string>,
                            foilHoles: seq<string>, statsOf: string -> Stats) returns (stats: map<string, map<string, seq<Stat>>>)
    ensures stats == GridSquareStats(exposureKeys, particleKeys, setKeys, foilHoles, statsOf)
  {
    stats := map[];
    if NoKeys(exposureKeys, particleKeys, setKeys) {
      return;
    }
    for i := 0 to |foilHoles|
      invariant stats == Merge(foilHoles, statsOf, i)
    {
      stats := MergeFoilHole(stats, foilHoles[i], statsOf(foilHoles[i]));
    }
  }

  // ---------------------------------------------------------------------
  // get_particle_id.

  /** The columns of a Particle row the lookup filters on. */
  datatype ParticleRow = ParticleRow(particleId: int, exposureName: string, x: real, y: real)

  /** The particles of the given exposure at exactly (x, y), in query order. */
  function ParticlesAt(particles: seq<ParticleRow>, exposureName: string, x: real, y: real): seq<ParticleRow>
  {
    if |particles| == 0 then []
    else
      var last := particles[|particles| - 1];
      ParticlesAt(particles[..|particles| - 1], exposureName, x, y)
      + (if last.exposureName == exposureName && last.x == x && last.y == y then [last] else [])
  }

  predicate AtPosition(p: ParticleRow, exposureName: string, x: real, y: real)
  {
    p.exposureName == exposureName && p.x == x && p.y == y
  }

  /** `get_particle_id`: no particle there gives None, more than one raises
      ValueError, exactly one gives its id. */
  function ParticleId(particles: seq<ParticleRow>, exposureName: string, x: real, y: real): Result<Option<int>>
  {
    var found := ParticlesAt(particles, exposureName, x, y);
    if |found| == 0 then Ok(None)
    else if |found| > 1 then Err(ValueError)
    else Ok(Some(found[0].particleId))
  }

  /** The rows of the lookup are exactly the particle rows at the position. */
  lemma {:induction false} ParticlesAtMembers(particles: seq<ParticleRow>, exposureName: string, x: real, y: real)
    ensures forall p :: p in ParticlesAt(particles, exposureName, x, y) <==> p in particles && AtPosition(p, exposureName, x, y)
  {
    if |particles| > 0 {
      var n := |particles|;
      ParticlesAtMembers(particles[..n - 1], exposureName, x, y);
      assert particles == particles[..n - 1] + [particles[n - 1]];
    }
  }

  /** The indices of the particle rows at the position. */
  function Hits(particles: seq<ParticleRow>, exposureName: string, x: real, y: real): set<int>
  {
    set j | 0 <= j < |particles| && AtPosition(particles[j], exposureName, x, y)
  }

  /** The lookup yields one row per index at the position. */
  lemma {:induction false} ParticlesAtCount(particles: seq<ParticleRow>, exposureName: string, x: real, y: real)
    ensures |ParticlesAt(particles, exposureName, x, y)| == |Hits(particles, exposureName, x, y)|
  {
    if |particles| > 0 {
      var n := |particles|;
      var front := particles[..n - 1];
      ParticlesAtCount(front, exposureName, x, y);
      HitsSnoc(particles, exposureName, x, y);
      if AtPosition(particles[n - 1], exposureName, x, y) {
        assert |Hits(particles, exposureName, x, y)| == |Hits(front, exposureName, x, y)| + 1;
      }
    }
  }

  /** The last row adds its own index to the hits of the rows before it, or nothing. */
  lemma HitsSnoc(particles: seq<ParticleRow>, exposureName: string, x: real, y: real)
    requires |particles| > 0
    ensures var n := |particles|;
      var before := Hits(particles[..n - 1], exposureName, x, y);
      && n - 1 !in before
      && Hits(particles, exposureName, x, y) ==
         before + (if AtPosition(particles[n - 1], exposureName, x, y) then {n - 1} else {})
  {
    var n := |particles|;
    assert forall j :: 0 <= j < n - 1 ==> particles[..n - 1][j] == particles[j];
  }

  /** The lookup's three outcomes by the number of rows at the position: none,
      several, or one, whose id is returned. */
  lemma ParticleIdMeaning(particles: seq<ParticleRow>, exposureName: string, x: real, y: real)
    ensures var hits := Hits(particles, exposureName, x, y);
      && (ParticleId(particles, exposureName, x, y) == Ok(None) <==> |hits| == 0)
      && (ParticleId(particles, exposureName, x, y) == Err(ValueError) <==> |hits| > 1)
      && (ParticleId(particles, exposureName, x, y).Ok? && ParticleId(particles, exposureName, x, y).value.Some? <==> |hits| == 1)
    ensures forall id :: ParticleId(particles, exposureName, x, y) == Ok(Some(id)) ==>
      exists j :: 0 <= j < |particles| && AtPosition(particles[j], exposureName, x, y) && particles[j].particleId == id
  {
    ParticlesAtMembers(particles, exposureName, x, y);
    ParticlesAtCount(particles, exposureName, x, y);
    var found := ParticlesAt(particles, exposureName, x, y);
    if |found| == 1 {
      assert found[0] in found;
    }
  }

  // ---------------------------------------------------------------------
  // The Extractor's atlas: set_atlas_id and get_tile.

  /** The columns of an Atlas row `set_atlas_id` loads. */
  datatype AtlasRow = AtlasRow(atlasId: int, thumbnail: string)

  /** The columns of a Tile row `get_tile` uses. */
  datatype TileRow = TileRow(tileId: int, atlasId: int, stageX: real, stageY: real, pixelSize: real, readoutX: real, readoutY: real)

  /** The id of the first atlas whose thumbnail is the given path. */
  function AtlasWithThumbnail(atlases: seq<AtlasRow>, path: string): Option<int>
  {
    if |atlases| == 0 then None
    else if atlases[0].thumbnail == path then Some(atlases[0].atlasId)
    else AtlasWithThumbnail(atlases[1..], path)
  }

  /** AtlasWithThumbnail finds an atlas exactly when one has that thumbnail,
      and the first such one. */
  lemma {:induction false} AtlasWithThumbnailMeaning(atlases: seq<AtlasRow>, path: string)
    ensures AtlasWithThumbnail(atlases, path).None? <==> forall i :: 0 <= i < |atlases| ==> atlases[i].thumbnail != path
    ensures AtlasWithThumbnail(atlases, path).Some? ==>
      exists i :: 0 <= i < |atlases| && atlases[i].thumbnail == path && atlases[i].atlasId == AtlasWithThumbnail(atlases, path).value &&
        (forall j :: 0 <= j < i ==> atlases[j].thumbnail != path)
  {
    if |atlases| > 0 && atlases[0].thumbnail != path {
      AtlasWithThumbnailMeaning(atlases[1..], path);
      assert forall i :: 1 <= i < |atlases| ==> atlases[1..][i - 1] == atlases[i];
      if AtlasWithThumbnail(atlases, path).Some? {
        var i :| 0 <= i < |atlases[1..]| && atlases[1..][i].thumbnail == path &&
          atlases[1..][i].atlasId == AtlasWithThumbnail(atlases, path).value &&
          forall j :: 0 <= j < i ==> atlases[1..][j].thumbnail != path;
        assert atlases[i + 1] == atlases[1..][i];
      }
    }
  }

  /** The tiles of the given atlas, in query order. */
  function OnAtlas(tiles: seq<TileRow>, atlasId: int): seq<TileRow>
  {
    if |tiles| == 0 then []
    else OnAtlas(tiles[..|tiles| - 1], atlasId) + (if tiles[|tiles| - 1].atlasId == atlasId then [tiles[|tiles| - 1]] else [])
  }

  /** The strict containment test of `get_tile`: left < x < right and
      bottom < y < top, the edges half the readout area times the pixel size
      from the tile's stage position. */
  predicate Contains(t: TileRow, pos: (real, real))
  {
    var left := t.stageX - 0.5 * (t.pixelSize * t.readoutX);
    var right := t.stageX + 0.5 * (t.pixelSize * t.readoutX);
    var top := t.stageY + 0.5 * (t.pixelSize * t.readoutY);
    var bottom := t.stageY - 0.5 * (t.pixelSize * t.readoutY);
    pos.0 > left && pos.0 < right && pos.1 < top && pos.1 > bottom
  }

  function Abs(r: real): real
  {
    if r < 0.0 then -r else r
  }

  /** A tile contains a point exactly when the point is closer to its stage
      position than half its extent on both axes (so never when the extent is
      zero or negative). */
  lemma ContainsMeaning(t: TileRow, pos: (real, real))
    ensures Contains(t, pos) <==>
      Abs(pos.0 - t.stageX) < 0.5 * (t.pixelSize * t.readoutX) && Abs(pos.1 - t.stageY) < 0.5 * (t.pixelSize * t.readoutY)
  {
  }

  /** The first tile that contains the point, if any. */
  function FirstContaining(tiles: seq<TileRow>, pos: (real, real)): Option<TileRow>
  {
    if |tiles| == 0 then None
    else if Contains(tiles[0], pos) then Some(tiles[0])
    else FirstContaining(tiles[1..], pos)
  }

  /** FirstContaining finds a tile exactly when one contains the point, and
      then the first one that does. */
  lemma {:induction false} FirstContainingMeaning(tiles: seq<TileRow>, pos: (real, real))
    ensures FirstContaining(tiles, pos).None? <==> forall i :: 0 <= i < |tiles| ==> !Contains(tiles[i], pos)
    ensures FirstContaining(tiles, pos).Some? ==>
      exists i :: 0 <= i < |tiles| && tiles[i] == FirstContaining(tiles, pos).value && Contains(tiles[i], pos) &&
        (forall j :: 0 <= j < i ==> !Contains(tiles[j], pos))
  {
    if |tiles| > 0 && !Contains(tiles[0], pos) {
      FirstContainingMeaning(tiles[1..], pos);
      assert forall i :: 1 <= i < |tiles| ==> tiles[1..][i - 1] == tiles[i];
      if FirstContaining(tiles, pos).Some? {
        var i :| 0 <= i < |tiles[1..]| && tiles[1..][i] == FirstContaining(tiles, pos).value && Contains(tiles[1..][i], pos) &&
          forall j :: 0 <= j < i ==> !Contains(tiles[1..][j], pos);
        assert tiles[i + 1] == tiles[1..][i];
      }
    }
  }

  // ---------------------------------------------------------------------
  // The records the STAR loaders hand to the Extractor.

  /** How a ParticleInfo names its particle: by the id of a stored particle,
      or by its position in the batch of new particles that the same loader
      passed to `put_particles` (the database assigns that particle's id). */
  datatype ParticleRef = Stored(id: int) | Queued(index: nat)

  /** The rows the loaders create. */
  datatype Entry =
    | ExposureInfo(exposureName: string, source: string, key: string, value: Cell)
    | ParticleInfo(particle: ParticleRef, source: string, key: string, value: Cell)
    | NewParticle(x: Cell, y: Cell, exposureName: string)
    | ParticleSet(groupName: string, identifier: Cell)
    | ParticleSetLinker(setName: Cell, particleId: int)
    | ParticleSetInfo(setName: Cell, source: string, key: string, floatValue: real)

  /** One call of `put_info`, `put_particles` or `put`, with its batch. */
  datatype PutCall = PutInfo(entries: seq<Entry>) | PutParticles(entries: seq<Entry>) | Put(entries: seq<Entry>)

  /** The particles of an exposure, in query order: `get_particles(exposure_name)`. */
  function ParticlesOf(particles: seq<ParticleRow>, exposureName: string): seq<ParticleRow>
  {
    if |particles| == 0 then []
    else
      var last := particles[|particles| - 1];
      ParticlesOf(particles[..|particles| - 1], exposureName) + (if last.exposureName == exposureName then [last] else [])
  }

  /** Every particle of an exposure's list belongs to that exposure and to the table. */
  lemma {:induction false} ParticlesOfMembers(particles: seq<ParticleRow>, exposureName: string)
    ensures forall p :: p in ParticlesOf(particles, exposureName) <==> p in particles && p.exposureName == exposureName
  {
    if |particles| > 0 {
      ParticlesOfMembers(particles[..|particles| - 1], exposureName);
      assert particles == particles[..|particles| - 1] + [particles[|particles| - 1]];
    }
  }

  /** The Extractor: the atlas its lookups are restricted to, the rows the
      STAR loaders read from the database, and the batches they store. */
  class Extractor {
    var atlasId: int
    /** The exposure names `get_all_exposures` yields, by atlas id. */
    const exposuresByAtlas: map<int, seq<string>>
    /** The Particle table, in query order. */
    const particles: seq<ParticleRow>
    /** Every batch stored so far, in call order. */
    var puts: seq<PutCall>

    /** `Extractor(atlas_id=...)` over a database holding the given rows; the
        default id is 0. */
    constructor(atlasId: int, exposuresByAtlas: map<int, seq<string>>, particles: seq<ParticleRow>)
      ensures this.atlasId == atlasId && this.exposuresByAtlas == exposuresByAtlas && this.particles == particles
      ensures puts == []
    {
      this.atlasId := atlasId;
      this.exposuresByAtlas := exposuresByAtlas;
      this.particles := particles;
      puts := [];
    }

    /** The names of `get_all_exposures()`: the exposures of the current atlas. */
    function AllExposures(): seq<string>
      reads this
    {
      if atlasId in exposuresByAtlas then exposuresByAtlas[atlasId] else []
    }

    /** `put_info`, `put_particles` or `put`: the batch is stored. */
    method Store(call: PutCall)
      modifies this
      ensures puts == old(puts) + [call]
      ensures atlasId == old(atlasId)
    {
      puts := puts + [call];
    }

    /** `set_atlas_id`: scans the atlases and, at the first whose thumbnail is
        the path, takes its id and returns True; otherwise returns False and
        leaves the id. */
    method SetAtlasId(atlases: seq<AtlasRow>, atlasPath: string) returns (found: bool)
      modifies this
      ensures found == AtlasWithThumbnail(atlases, atlasPath).Some?
      ensures atlasId == if found then AtlasWithThumbnail(atlases, atlasPath).value else old(atlasId)
      ensures puts == old(puts)
    {
      for i := 0 to |atlases|
        invariant AtlasWithThumbnail(atlases, atlasPath) == AtlasWithThumbnail(atlases[i..], atlasPath)
        invariant atlasId == old(atlasId)
        invariant puts == old(puts)
      {
        assert atlases[i..][1..] == atlases[i + 1..];
        if atlases[i].thumbnail == atlasPath {
          atlasId := atlases[i].atlasId;
          return true;
        }
      }
      return false;
    }

    /** `get_tile`: among the tiles of this extractor's atlas, in query order,
        the first whose open rectangle contains the stage position, or None. */
    method GetTile(tiles: seq<TileRow>, stagePosition: (real, real)) returns (r: Option<TileRow>)
      ensures r == FirstContaining(OnAtlas(tiles, atlasId), stagePosition)
    {
      var candidates := OnAtlas(tiles, atlasId);
      for i := 0 to |candidates|
        invariant FirstContaining(candidates, stagePosition) == FirstContaining(candidates[i..], stagePosition)
      {
        assert candidates[i..][1..] == candidates[i + 1..];
        if Contains(candidates[i], stagePosition) {
          return Some(candidates[i]);
        }
      }
      return None;
    }
  }
}
