/** Keyed reassembly: how a batch function turns the rows of one multi-key query into
    exactly one answer per requested key, in the order of the requested keys. */
module KeyedBatch {
  import opened Wrappers

  /** What one run of a batch function did: the key list it sent to the store in its
      single `IN (...)` query, if it sent one, and the answer for each requested key. */
  datatype BatchRun<K, R> = BatchRun(query: Option<seq<K>>, values: seq<Option<R>>)

  /** The key values that occur in `rows`. */
  ghost function KeysOf<K, R>(rows: seq<R>, key: R -> K): set<K>
  {
    set x | x in rows :: key(x)
  }

  /** Splitting off the last row splits off its key. */
  lemma KeysOfPrefix<K, R>(rows: seq<R>, key: R -> K)
    requires |rows| > 0
    ensures KeysOf(rows, key) == KeysOf(rows[..|rows| - 1], key) + {key(rows[|rows| - 1])}
  {
  }

  /** The position of the last row of `rows` whose key is `k`, or -1 when there is none. */
  ghost function LastIndexOf<K, R>(rows: seq<R>, key: R -> K, k: K): (r: int)
    ensures -1 <= r < |rows|
    ensures r >= 0 ==> key(rows[r]) == k
    ensures forall j :: r < j < |rows| ==> key(rows[j]) != k
    ensures r == -1 <==> k !in KeysOf(rows, key)
  {
    if |rows| == 0 then -1
    else
      KeysOfPrefix(rows, key);
      if key(rows[|rows| - 1]) == k then |rows| - 1
      else LastIndexOf(rows[..|rows| - 1], key, k)
  }

  /** `createKeyMap`: a map from each row's key to the row. Rows are entered in order, so
      when several rows share a key the LAST of them is the one the map keeps. */
  function CreateKeyMap<K(==), R>(items: seq<R>, key: R -> K): (m: map<K, R>)
    ensures m.Keys == KeysOf(items, key)
    ensures forall k :: k in m ==> m[k] == items[LastIndexOf(items, key, k)]
  {
    if |items| == 0 then map[]
    else
      var last := items[|items| - 1];
      KeysOfPrefix(items, key);
      CreateKeyMap(items[..|items| - 1], key)[key(last) := last]
  }

  /** The rows of `table` whose key is one of `keys`, in table order: the answer of the
      store to `WHERE key IN (keys)`. */
  function SelectWhereIn<K(==), R>(table: seq<R>, key: R -> K, keys: seq<K>): (rows: seq<R>)
    ensures forall j :: 0 <= j < |rows| ==> rows[j] in table && key(rows[j]) in keys
    ensures forall j :: 0 <= j < |table| && key(table[j]) in keys ==> table[j] in rows
  {
    if |table| == 0 then []
    else
      (if key(table[0]) in keys then [table[0]] else []) + SelectWhereIn(table[1..], key, keys)
  }

  /** `keys.map(k => map.get(k) || null)`: one answer per requested key. */
  function Reassemble<K(==), R>(keys: seq<K>, m: map<K, R>): (r: seq<Option<R>>)
    ensures |r| == |keys|
    ensures forall i :: 0 <= i < |keys| ==> (r[i].None? <==> keys[i] !in m)
    ensures forall i :: 0 <= i < |keys| && r[i].Some? ==> m[keys[i]] == r[i].value
    ensures forall i, j :: 0 <= i < |keys| && 0 <= j < |keys| && keys[i] == keys[j] ==> r[i] == r[j]
  {
    seq(|keys|, i requires 0 <= i < |keys| => if keys[i] in m then Some(m[keys[i]]) else None)
  }

  /** The batch function of a keyed loader over `table`, looking rows up by `key`. An empty
      key list is answered with an empty list and no query; otherwise one query fetches the
      rows whose key is requested, and the answers come back one per requested key, in
      request order, with `None` for a key no row has. */
  function BatchLoad<K(==), R>(keys: seq<K>, table: seq<R>, key: R -> K): (r: BatchRun<K, R>)
    ensures r.query.None? <==> |keys| == 0
    ensures r.query.Some? ==> r.query.value == keys
    ensures |r.values| == |keys|
    ensures forall i :: 0 <= i < |keys| ==> (r.values[i].Some? <==> keys[i] in KeysOf(table, key))
    ensures forall i :: 0 <= i < |keys| && r.values[i].Some? ==>
              r.values[i].value in table && key(r.values[i].value) == keys[i]
    ensures forall i, j :: 0 <= i < |keys| && 0 <= j < |keys| && keys[i] == keys[j] ==>
              r.values[i] == r.values[j]
  {
    if |keys| == 0 then BatchRun(None, [])
    else
      var rows := SelectWhereIn(table, key, keys);
      var m := CreateKeyMap(rows, key);
      SelectedKeys(table, key, keys);
      BatchRun(Some(keys), Reassemble(keys, m))
  }

  /** A requested key occurs among the selected rows exactly when it occurs in the table. */
  lemma SelectedKeys<K, R>(table: seq<R>, key: R -> K, keys: seq<K>)
    ensures forall k :: k in keys ==> (k in KeysOf(SelectWhereIn(table, key, keys), key) <==> k in KeysOf(table, key))
  {
  }

  /** When no two rows of the table share a key (a primary key or a unique column), the
      answer for a requested key is THE row with that key. */
  lemma BatchLoadUnique<K, R>(keys: seq<K>, table: seq<R>, key: R -> K, i: nat, row: R)
    requires forall a, b :: 0 <= a < |table| && 0 <= b < |table| && key(table[a]) == key(table[b]) ==> a == b
    requires i < |keys| && row in table && key(row) == keys[i]
    ensures BatchLoad(keys, table, key).values[i] == Some(row)
  {
  }
}
