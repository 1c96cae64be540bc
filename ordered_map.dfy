/**
 * JavaScript `Map`s (and objects used as dictionaries): a list of key/value pairs in
 * insertion order. `set` on a present key replaces the value where it stands, so the key
 * keeps its first position.
 */
module OrderedMap {
  import opened Wrappers
  import opened OrderedSet

  type OMap<K, V> = seq<(K, V)>

  /** The keys in iteration order. */
  function MapKeys<K, V>(m: OMap<K, V>): (ks: seq<K>)
    ensures |ks| == |m|
    ensures forall i :: 0 <= i < |m| ==> ks[i] == m[i].0
  {
    seq(|m|, i requires 0 <= i < |m| => m[i].0)
  }

  /** One more pair adds its key at the end of the key list. */
  lemma MapKeysSnoc<K, V>(m: OMap<K, V>)
    requires |m| > 0
    ensures MapKeys(m) == MapKeys(m[..|m| - 1]) + [m[|m| - 1].0]
  {
  }

  /** The position of the first pair with key k. */
  function Find<K(==), V>(m: OMap<K, V>, k: K): (r: Option<nat>)
    ensures r.Some? ==> r.value < |m| && m[r.value].0 == k
    ensures r.Some? ==> forall j :: 0 <= j < r.value ==> m[j].0 != k
    ensures r.None? ==> forall j :: 0 <= j < |m| ==> m[j].0 != k
  {
    if |m| == 0 then None
    else if m[0].0 == k then Some(0)
    else match Find(m[1..], k)
      case None => None
      case Some(i) => Some(i + 1)
  }

  /** `m.get(k)`, None for `undefined`. */
  function MapGet<K(==), V>(m: OMap<K, V>, k: K): (r: Option<V>)
    ensures r.Some? <==> k in MapKeys(m)
  {
    match Find(m, k)
    case None => None
    case Some(i) => assert MapKeys(m)[i] == k; Some(m[i].1)
  }

  /** `m.set(k, v)`. */
  function MapSet<K(==), V>(m: OMap<K, V>, k: K, v: V): OMap<K, V> {
    match Find(m, k)
    case None => m + [(k, v)]
    case Some(i) => m[i := (k, v)]
  }

  /** A new key goes last; a present one stays where it is. */
  lemma MapSetKeys<K, V>(m: OMap<K, V>, k: K, v: V)
    ensures MapKeys(MapSet(m, k, v)) == if k in MapKeys(m) then MapKeys(m) else MapKeys(m) + [k]
  {
    match Find(m, k)
    case None =>
    case Some(i) =>
  }

  /** The first pair with key k is the one Find reports. */
  lemma {:induction false} FindFirst<K, V>(m: OMap<K, V>, k: K, i: nat)
    requires i < |m| && m[i].0 == k
    requires forall j :: 0 <= j < i ==> m[j].0 != k
    ensures Find(m, k) == Some(i)
  {
    if i > 0 {
      FindFirst(m[1..], k, i - 1);
    }
  }

  /** Find ignores pairs whose keys are not k. */
  lemma FindSameKeys<K, V>(m: OMap<K, V>, r: OMap<K, V>, k: K)
    requires |r| == |m| && forall j :: 0 <= j < |m| ==> (r[j].0 == k <==> m[j].0 == k)
    ensures Find(r, k) == Find(m, k)
  {
    match Find(m, k)
    case None =>
    case Some(i) => FindFirst(r, k, i);
  }

  /** After `set`, `get` of that key yields the new value and every other key is unaffected. */
  lemma MapSetGet<K, V>(m: OMap<K, V>, k: K, v: V, k2: K)
    ensures MapGet(MapSet(m, k, v), k2) == if k2 == k then Some(v) else MapGet(m, k2)
  {
    var r := MapSet(m, k, v);
    match Find(m, k)
    case None =>
      if k2 == k {
        FindFirst(r, k, |m|);
      } else {
        match Find(m, k2)
        case None =>
        case Some(i) => FindFirst(r, k2, i);
      }
    case Some(i) =>
      if k2 == k {
        FindFirst(r, k, i);
      } else {
        FindSameKeys(m, r, k2);
      }
  }

  /** The map that successive `set` calls build from a list of pairs. */
  function FromPairs<K(==), V>(ps: seq<(K, V)>): OMap<K, V> {
    if |ps| == 0 then [] else MapSet(FromPairs(ps[..|ps| - 1]), ps[|ps| - 1].0, ps[|ps| - 1].1)
  }

  /** Its keys are the pairs' keys, each once, in first-seen order. */
  lemma {:induction false} FromPairsKeys<K(!new), V>(ps: seq<(K, V)>)
    ensures MapKeys(FromPairs(ps)) == Dedup(MapKeys(ps))
  {
    if |ps| > 0 {
      var p, e := ps[..|ps| - 1], ps[|ps| - 1];
      FromPairsKeys(p);
      MapKeysSnoc(ps);
      MapSetKeys(FromPairs(p), e.0, e.1);
      DedupSnoc(MapKeys(p), e.0);
    }
  }

  /** A key set several times holds the value of its last pair. */
  lemma {:induction false} FromPairsLast<K, V>(ps: seq<(K, V)>, i: nat)
    requires i < |ps| && forall j :: i < j < |ps| ==> ps[j].0 != ps[i].0
    ensures MapGet(FromPairs(ps), ps[i].0) == Some(ps[i].1)
  {
    var p, e := ps[..|ps| - 1], ps[|ps| - 1];
    MapSetGet(FromPairs(p), e.0, e.1, ps[i].0);
    if i < |p| {
      assert p[i] == ps[i];
      FromPairsLast(p, i);
    }
  }
}
