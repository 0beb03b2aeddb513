/**
 * Insertion-ordered dictionaries, as a Python dict or a PHP array with string
 * keys: a sequence of (key, value) pairs. Assigning to an existing key keeps its
 * place; assigning to a new key appends it. `ToMap` forgets the order and is how
 * the ordered clients are compared with the Go client's maps.
 */
module Dict {
  import opened Wrappers
  import opened Api

  type Dict<V> = seq<(string, V)>

  predicate UniqueKeys<V>(d: Dict<V>) {
    forall i, j | 0 <= i < j < |d| :: d[i].0 != d[j].0
  }

  /** The position of key `k`, the first one when several entries carry it. */
  function Find<V>(d: Dict<V>, k: string): (r: Option<nat>)
    ensures r.None? <==> forall i | 0 <= i < |d| :: d[i].0 != k
    ensures r.Some? ==> r.value < |d| && d[r.value].0 == k
    decreases |d|
  {
    if |d| == 0 then None
    else if d[0].0 == k then Some(0)
    else
      match Find(d[1..], k)
      case None => None
      case Some(i) => Some(i + 1)
  }

  /** The unordered view: each key with its value; a later entry replaces an earlier one. */
  function ToMap<V>(d: Dict<V>): (m: map<string, V>)
    ensures forall i | 0 <= i < |d| :: d[i].0 in m
    decreases |d|
  {
    if |d| == 0 then map[]
    else
      var n := |d| - 1;
      assert forall i | 0 <= i < n :: d[..n][i] == d[i];
      ToMap(d[..n])[d[n].0 := d[n].1]
  }

  /** With unique keys, the unordered view gives every entry its own value. */
  lemma {:induction false} ToMapAt<V>(d: Dict<V>, i: nat)
    requires UniqueKeys(d) && i < |d|
    ensures ToMap(d)[d[i].0] == d[i].1
    decreases |d|
  {
    var n := |d| - 1;
    if i < n {
      assert UniqueKeys(d[..n]) && d[..n][i] == d[i];
      ToMapAt(d[..n], i);
    }
  }

  /** Concatenating two dictionaries merges their views, the right one winning. */
  lemma {:induction false} ToMapAppend<V>(a: Dict<V>, b: Dict<V>)
    ensures ToMap(a + b) == ToMap(a) + ToMap(b)
    decreases |b|
  {
    if |b| > 0 {
      var n := |b| - 1;
      assert (a + b)[..|a| + n] == a + b[..n];
      ToMapAppend(a, b[..n]);
    } else {
      assert a + b == a;
    }
  }

  /** Replacing the value at the position of key k. */
  lemma {:induction false} ToMapReplace<V>(d: Dict<V>, i: nat, v: V)
    requires UniqueKeys(d) && i < |d|
    ensures ToMap(d[i := (d[i].0, v)]) == ToMap(d)[d[i].0 := v]
    decreases |d|
  {
    var n := |d| - 1;
    var e := d[i := (d[i].0, v)];
    if i < n {
      assert UniqueKeys(d[..n]);
      assert e[..n] == d[..n][i := (d[i].0, v)];
      ToMapReplace(d[..n], i, v);
    } else {
      assert e[..n] == d[..n];
    }
  }

  /** Every key of the unordered view comes from an entry. */
  lemma {:induction false} ToMapKeys<V>(d: Dict<V>, k: string)
    ensures k in ToMap(d) ==> Find(d, k).Some?
    decreases |d|
  {
    if |d| > 0 {
      var n := |d| - 1;
      ToMapKeys(d[..n], k);
      if k in ToMap(d[..n]) {
        var j := Find(d[..n], k).value;
        assert d[j].0 == k;
      }
    }
  }

  /** The read d[k]: the value of key k, or None when k is missing. */
  function Get<V>(d: Dict<V>, k: string): Option<V> {
    match Find(d, k)
    case Some(i) => Some(d[i].1)
    case None => None
  }

  /** With unique keys, reading a key reads the unordered view. */
  lemma GetView<V>(d: Dict<V>, k: string)
    requires UniqueKeys(d)
    ensures Get(d, k) == if k in ToMap(d) then Some(ToMap(d)[k]) else None
  {
    ToMapKeys(d, k);
    if Find(d, k).Some? {
      ToMapAt(d, Find(d, k).value);
    }
  }

  /** The assignment d[k] = v. */
  function Put<V>(d: Dict<V>, k: string, v: V): Dict<V> {
    match Find(d, k)
    case Some(i) => d[i := (k, v)]
    case None => d + [(k, v)]
  }

  /**
   * An assignment sets one key and keeps every other key where it was with its
   * value; a new key goes last and an existing key keeps its place.
   */
  lemma PutEffect<V>(d: Dict<V>, k: string, v: V)
    requires UniqueKeys(d)
    ensures UniqueKeys(Put(d, k, v))
    ensures ToMap(Put(d, k, v)) == ToMap(d)[k := v]
    ensures Find(d, k).None? ==> Put(d, k, v) == d + [(k, v)]
    ensures Find(d, k).Some? ==> |Put(d, k, v)| == |d| && Put(d, k, v)[Find(d, k).value] == (k, v)
    ensures |d| <= |Put(d, k, v)|
    ensures forall i | 0 <= i < |d| && d[i].0 != k :: Put(d, k, v)[i] == d[i]
  {
    match Find(d, k)
    case Some(i) =>
      ToMapReplace(d, i, v);
    case None =>
      assert (d + [(k, v)])[..|d|] == d;
  }

  /** The API key set first and then the JSON flag, as both script clients do. */
  function SetKeyAndFlag<V>(d: Dict<V>, key: V, flag: V): Dict<V> {
    Put(Put(d, KeyName, key), JsonName, flag)
  }

  /** Setting the key and the flag has the Go client's effect on the unordered view. */
  lemma SetKeyAndFlagView<V>(d: Dict<V>, key: V, flag: V)
    requires UniqueKeys(d)
    ensures UniqueKeys(SetKeyAndFlag(d, key, flag))
    ensures ToMap(SetKeyAndFlag(d, key, flag)) == Inject(ToMap(d), key, flag)
  {
    PutEffect(d, KeyName, key);
    PutEffect(Put(d, KeyName, key), JsonName, flag);
  }

  /** The caller's other entries keep their places and their values. */
  lemma SetKeyAndFlagKeeps<V>(d: Dict<V>, key: V, flag: V)
    requires UniqueKeys(d)
    ensures |d| <= |SetKeyAndFlag(d, key, flag)|
    ensures forall i | 0 <= i < |d| && d[i].0 != KeyName && d[i].0 != JsonName :: SetKeyAndFlag(d, key, flag)[i] == d[i]
  {
    var d1 := Put(d, KeyName, key);
    PutEffect(d, KeyName, key);
    PutEffect(d1, JsonName, flag);
    forall i | 0 <= i < |d| && d[i].0 != KeyName && d[i].0 != JsonName
      ensures SetKeyAndFlag(d, key, flag)[i] == d[i]
    {
      assert d1[i] == d[i];
    }
  }

  /** When neither key was there, the two new entries come last, the key first. */
  lemma SetKeyAndFlagAppends<V>(d: Dict<V>, key: V, flag: V)
    requires Find(d, KeyName).None? && Find(d, JsonName).None?
    ensures SetKeyAndFlag(d, key, flag) == d + [(KeyName, key), (JsonName, flag)]
  {
    var d1 := d + [(KeyName, key)];
    assert Put(d, KeyName, key) == d1;
    assert Find(d1, JsonName).None? by {
      assert forall i | 0 <= i < |d| :: d1[i] == d[i];
      assert d1[|d|].0 == KeyName != JsonName;
    }
    assert Put(d1, JsonName, flag) == d1 + [(JsonName, flag)];
    assert d1 + [(JsonName, flag)] == d + [(KeyName, key), (JsonName, flag)];
  }

  /** The literal [keys[0] => vals[0], ...], in order. */
  function Zip<V>(keys: seq<string>, vals: seq<V>): (d: Dict<V>)
    requires |keys| == |vals|
    ensures |d| == |keys| && forall i | 0 <= i < |d| :: d[i] == (keys[i], vals[i])
  {
    seq(|keys|, i requires 0 <= i < |keys| => (keys[i], vals[i]))
  }

  /** The ordered literal has the same view as the Go map literal. */
  lemma {:induction false} ZipView<V>(keys: seq<string>, vals: seq<V>)
    requires |keys| == |vals|
    ensures ToMap(Zip(keys, vals)) == ZipMap(keys, vals)
    decreases |keys|
  {
    if keys != [] {
      var n := |keys| - 1;
      assert Zip(keys, vals)[..n] == Zip(keys[..n], vals[..n]);
      ZipView(keys[..n], vals[..n]);
    }
  }

  /** The dictionary filled entry by entry, skipping every value equal to `absent`. */
  function Supplied<V(==)>(keys: seq<string>, vals: seq<V>, absent: V): (d: Dict<V>)
    requires |keys| == |vals|
    ensures |d| <= |keys|
    decreases |keys|
  {
    if keys == [] then []
    else
      var n := |keys| - 1;
      var rest := Supplied(keys[..n], vals[..n], absent);
      if vals[n] != absent then rest + [(keys[n], vals[n])] else rest
  }

  /** Filling entry by entry has the same view as the Go client's map. */
  lemma {:induction false} SuppliedView<V>(keys: seq<string>, vals: seq<V>, absent: V)
    requires |keys| == |vals|
    ensures ToMap(Supplied(keys, vals, absent)) == KeepSupplied(keys, vals, absent)
    decreases |keys|
  {
    if keys != [] {
      var n := |keys| - 1;
      SuppliedView(keys[..n], vals[..n], absent);
      var rest := Supplied(keys[..n], vals[..n], absent);
      if vals[n] != absent {
        ToMapAppend(rest, [(keys[n], vals[n])]);
      }
    }
  }
}
