/** A JavaScript `Map<string, number>` as the overview uses it: `get`, `set` and iteration over its
    entries, which visits the keys in the order they were first inserted. */
module OrderedMaps {
  import opened Wrappers

  /** One entry of the map, and one bar of the spending-over-time chart: a period label and the
      amount spent in it. */
  datatype Bucket = Bucket(period: string, amount: real)

  /** No key occurs twice. */
  predicate Distinct(keys: seq<string>) {
    forall i, j :: 0 <= i < j < |keys| ==> keys[i] != keys[j]
  }

  /** The entries of a map with insertion order `keys` and contents `values`, in that order. */
  function EntriesOf(keys: seq<string>, values: map<string, real>): (r: seq<Bucket>)
    requires forall k :: k in keys ==> k in values
    ensures |r| == |keys|
    ensures forall i :: 0 <= i < |r| ==> r[i] == Bucket(keys[i], values[keys[i]])
  {
    seq(|keys|, i requires 0 <= i < |keys| => Bucket(keys[i], values[keys[i]]))
  }

  class OrderedMap {
    /** The keys, in insertion order. */
    var keys: seq<string>
    /** The value stored under each key. */
    var values: map<string, real>

    /** Every key is listed once, and the listed keys are exactly the stored ones. */
    ghost predicate Valid()
      reads this
    {
      Distinct(keys) && forall k :: k in values <==> k in keys
    }

    /** `new Map()`. */
    constructor ()
      ensures Valid() && keys == [] && values == map[]
    {
      keys := [];
      values := map[];
    }

    /** `get(key)`; `None` stands for `undefined`. */
    function Get(key: string): (r: Option<real>)
      reads this
      requires Valid()
      ensures r.Some? <==> key in keys
      ensures r.Some? ==> r.value == values[key]
    {
      if key in values then Some(values[key]) else None
    }

    /** `set(key, value)`: an existing key keeps its place and takes the new value; a new key goes
        to the end. */
    method Set(key: string, value: real)
      modifies this
      requires Valid()
      ensures Valid()
      ensures keys == if key in old(keys) then old(keys) else old(keys) + [key]
      ensures values == old(values)[key := value]
    {
      if key !in values {
        keys := keys + [key];
      }
      values := values[key := value];
    }

    /** `Array.from(entries())`: the entries in insertion order. */
    function Entries(): (r: seq<Bucket>)
      reads this
      requires Valid()
      ensures |r| == |keys|
      ensures forall i :: 0 <= i < |r| ==> r[i].period == keys[i] && r[i].amount == values[keys[i]]
    {
      EntriesOf(keys, values)
    }
  }
}
