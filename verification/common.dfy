/** Shared vocabulary: optional values, the Python exceptions the modelled code
    can raise, and ordered dictionaries (Python dicts keep insertion order). */
module Common {

  datatype Option<T> = None | Some(value: T)

  /** The Python exceptions raised by the modelled code; NoReferencedTableError
      is SQLAlchemy's, for a foreign key that names no mapped table. */
  datatype PyError = KeyError | IndexError | ValueError | ZeroDivisionError | NoReferencedTableError

  /** A value, or the exception that the Python code raises instead. */
  datatype Result<T> = Ok(value: T) | Err(error: PyError)

  /** A cell of a STAR table as its JSON form decodes it: a string, or a
      number. A number never equals a string. */
  datatype Cell = Text(text: string) | Number(number: real)

  /** Outcome of a procedure that returns nothing in Python. */
  datatype Status = Done | Raised(error: PyError)

  /** An ordered dict: a sequence of entries whose keys are pairwise distinct. */
  predicate DistinctKeys<K(==), V>(d: seq<(K, V)>)
  {
    forall i, j :: 0 <= i < j < |d| ==> d[i].0 != d[j].0
  }

  /** The keys of an ordered dict, in insertion order. */
  function KeysOf<K, V>(d: seq<(K, V)>): (ks: seq<K>)
    ensures |ks| == |d|
    ensures forall i :: 0 <= i < |d| ==> ks[i] == d[i].0
  {
    if |d| == 0 then [] else [d[0].0] + KeysOf(d[1..])
  }

  /** `d[k]` / `d.get(k)`: the value stored under `k`, if any. */
  function Lookup<K(==), V>(d: seq<(K, V)>, k: K): (r: Option<V>)
    ensures r.None? <==> forall i :: 0 <= i < |d| ==> d[i].0 != k
    ensures r.Some? ==> exists i :: 0 <= i < |d| && d[i] == (k, r.value)
  {
    if |d| == 0 then None
    else if d[0].0 == k then Some(d[0].1)
    else
      var r := Lookup(d[1..], k);
      assert r.Some? ==> exists i :: 0 <= i < |d[1..]| && d[1..][i] == (k, r.value);
      r
  }

  /** In an ordered dict, the entry at position i is what a lookup of its key finds. */
  lemma {:induction false} LookupAt<K, V>(d: seq<(K, V)>, i: int)
    requires DistinctKeys(d)
    requires 0 <= i < |d|
    ensures Lookup(d, d[i].0) == Some(d[i].1)
  {
    if i > 0 {
      assert DistinctKeys(d[1..]) by {
        forall a, b | 0 <= a < b < |d[1..]| ensures d[1..][a].0 != d[1..][b].0 {
          assert d[1..][a] == d[a + 1] && d[1..][b] == d[b + 1];
        }
      }
      assert d[0].0 != d[i].0;
      LookupAt(d[1..], i - 1);
    }
  }

  /** `s[i]` on a Python list with a non-negative index. */
  function At<T>(s: seq<T>, i: nat): (r: Result<T>)
    ensures r.Ok? <==> i < |s|
    ensures r.Err? ==> r.error == IndexError
    ensures r.Ok? ==> r.value == s[i]
  {
    if i < |s| then Ok(s[i]) else Err(IndexError)
  }
}
