/** Values shared by every part of the model. */
module Support {

  /** A Java reference that may be null. */
  datatype Option<+T> = None | Some(value: T) {

    /** The value, or `fallback` when there is none. */
    function GetOr(fallback: T): T {
      if Some? then value else fallback
    }
  }

  /**
   * An Elasticsearch `Settings` object, seen as its flat map from dotted
   * key to string value.  Building settings from two others with
   * `put(a).put(b)` is the map union `a + b`: keys of `b` win.
   */
  type Settings = map<string, string>

  /** `Settings.EMPTY`. */
  const EMPTY: Settings := map[]

  /** A 32-bit Java `int`. */
  newtype int32 = x: int | -0x8000_0000 <= x < 0x8000_0000

  /** Java's `int` arithmetic: `x` wrapped around to 32 bits. */
  function Wrap(x: int): (r: int32)
    ensures (r as int - x) % 0x1_0000_0000 == 0
    ensures -0x8000_0000 <= x < 0x8000_0000 ==> r as int == x
  {
    var y := (x + 0x8000_0000) % 0x1_0000_0000;
    assert (y - (x + 0x8000_0000)) % 0x1_0000_0000 == 0;
    (y - 0x8000_0000) as int32
  }

  /**
   * `Arrays.hashCode` of an array, given the hash codes of its elements:
   * `h = 31 * h + e` over the elements, from 1, in `int` arithmetic.
   */
  function ArrayHash(hashes: seq<int32>): int32
    decreases |hashes|
  {
    if hashes == [] then 1
    else Wrap(31 * ArrayHash(hashes[..|hashes| - 1]) as int + hashes[|hashes| - 1] as int)
  }

  /** `Objects.hash(a, b)` for elements with hash codes `a` and `b`. */
  lemma ArrayHashOfTwo(a: int32, b: int32)
    ensures ArrayHash([a, b]) == Wrap(31 * Wrap(31 + a as int) as int + b as int)
  {
    assert [a][..0] == [];
    assert ArrayHash([a]) == Wrap(31 + a as int);
    assert [a, b][..1] == [a];
  }

  /** `Map.get`: the value stored under `k`, or null. */
  function Get<K, V>(m: map<K, V>, k: K): (r: Option<V>)
    ensures r.Some? <==> k in m
    ensures r.Some? ==> r.value == m[k]
  {
    if k in m then Some(m[k]) else None
  }
}
