/**
 * The storage of `micromap::Map` (src/lib.rs): exactly N slots whose count is
 * fixed once the map exists, and the two iterator records, which share the
 * map's slot array and only read it.
 */
module Micromap {
  import opened Pairs

  /** The number of slots that store a pair: what `len()` reports. */
  function Len<K, V>(slots: seq<Pair<K, V>>): (n: nat)
    ensures n <= |slots|
    ensures n == 0 <==> forall i :: 0 <= i < |slots| ==> !IsSome(slots[i])
    ensures n == |slots| <==> forall i :: 0 <= i < |slots| ==> IsSome(slots[i])
  {
    if |slots| == 0 then 0
    else
      var rest := Len(slots[1..]);
      assert forall i :: 1 <= i < |slots| ==> slots[i] == slots[1..][i - 1];
      (if IsSome(slots[0]) then 1 else 0) + rest
  }

  /** The slots of a map that has just been created: N default slots. */
  function EmptySlots<K, V>(n: nat): (s: seq<Pair<K, V>>)
    ensures |s| == n
    ensures Len(s) == 0
  {
    seq(n, _ => Default())
  }

  /**
   * Storing a pair in one slot adds one to the length when that slot was
   * empty and leaves it as it was when the slot already held a pair.
   */
  lemma {:induction false} LenStore<K, V>(slots: seq<Pair<K, V>>, i: nat, p: (K, V))
    requires i < |slots|
    ensures Len(slots[i := Present(p)]) == Len(slots) + (if IsSome(slots[i]) then 0 else 1)
  {
    if i > 0 {
      LenStore(slots[1..], i - 1, p);
      assert slots[i := Present(p)][1..] == slots[1..][i - 1 := Present(p)];
    } else {
      assert slots[i := Present(p)][1..] == slots[1..];
    }
  }

  /**
   * A fresh map of any capacity that has had one pair stored, in whichever
   * slot, holds exactly one pair.
   */
  lemma {:induction false} FreshMapWithOnePair<K, V>(n: nat, i: nat, k: K, v: V)
    requires i < n
    ensures Len(EmptySlots<K, V>(n)[i := Present((k, v))]) == 1
  {
    LenStore(EmptySlots<K, V>(n), i, (k, v));
  }

  /**
   * The crate's documentation example: a fresh `Map<u64, &str, 10>` into which
   * `(1, "Hello, world!")` is inserted has length 1.
   */
  lemma {:induction false} DocExample()
    ensures Len(EmptySlots<nat, string>(10)[0 := Present((1, "Hello, world!"))]) == 1
  {
    FreshMapWithOnePair<nat, string>(10, 0, 1, "Hello, world!");
  }

  /**
   * A map: an array of exactly N slots. Keys need nothing but equality. Both
   * the capacity and the array are constants, so no operation can change how
   * many slots a map has; only the contents of the slots can change. Keys and
   * values hold no references, so copying a slot copies everything in it.
   */
  class Map<K(==, !new), V(!new)> {
    const N: nat
    const pairs: array<Pair<K, V>>

    ghost predicate Valid()
      reads this
    {
      pairs.Length == N
    }

    /** The slots, in physical order. */
    function Slots(): (s: seq<Pair<K, V>>)
      reads this, pairs
      requires Valid()
      ensures |s| == N
    {
      pairs[..]
    }

    /** A map made from the given slots (the struct literal `Map { pairs }`). */
    constructor (slots: seq<Pair<K, V>>)
      ensures Valid() && fresh(pairs)
      ensures N == |slots| && Slots() == slots
    {
      N := |slots|;
      pairs := new Pair<K, V>[|slots|](i requires 0 <= i < |slots| => slots[i]);
    }

    /** An empty map with room for `n` pairs: every slot is the default slot. */
    constructor New(n: nat)
      ensures Valid() && fresh(pairs)
      ensures N == n && Slots() == EmptySlots(n) && Len(Slots()) == 0
    {
      N := n;
      pairs := new Pair<K, V>[n](_ => Default());
    }

    /**
     * `#[derive(Clone)]`: a map with its own new array, of the same capacity
     * as `source`, whose slots are copies of `source`'s slots, one by one.
     */
    constructor Clone(source: Map<K, V>)
      requires source.Valid()
      ensures Valid() && fresh(pairs)
      ensures N == source.N && Slots() == source.Slots()
    {
      var copy := new Pair<K, V>[source.N](_ => Default());
      var i := 0;
      while i < source.N
        invariant 0 <= i <= source.N
        invariant copy[..i] == source.pairs[..i]
      {
        copy[i] := source.pairs[i];
        i := i + 1;
      }
      N := source.N;
      pairs := copy;
    }

    /**
     * A borrowing iterator: a cursor at the first slot and a shared
     * reference to this map's own array. Creating it changes nothing.
     */
    method Iter() returns (it: MapIter<K, V>)
      requires Valid()
      ensures fresh(it) && it.pos == 0 && it.pairs == pairs
      ensures unchanged(pairs) && Valid()
    {
      it := new MapIter(0, pairs);
    }

    /**
     * The "consuming" iterator: like `Iter`, it holds only a shared reference
     * to this map's array, so the map keeps all its slots.
     */
    method IntoIter() returns (it: MapIntoIter<K, V>)
      requires Valid()
      ensures fresh(it) && it.pos == 0 && it.pairs == pairs
      ensures unchanged(pairs) && Valid()
    {
      it := new MapIntoIter(0, pairs);
    }
  }

  /** Iterator over a map: a cursor and a read-only view of the slot array. */
  class MapIter<K, V> {
    var pos: nat
    const pairs: array<Pair<K, V>>

    constructor (pos: nat, pairs: array<Pair<K, V>>)
      ensures this.pos == pos && this.pairs == pairs
    {
      this.pos := pos;
      this.pairs := pairs;
    }
  }

  /** The second iterator record: the same shape, the same read-only view. */
  class MapIntoIter<K, V> {
    var pos: nat
    const pairs: array<Pair<K, V>>

    constructor (pos: nat, pairs: array<Pair<K, V>>)
      ensures this.pos == pos && this.pairs == pairs
    {
      this.pos := pos;
      this.pairs := pairs;
    }
  }
}
