# micromap storage layer in Dafny

`micromap` is a map for a handful of entries that keeps its pairs in a fixed
array of `N` slots instead of a hash table. This project models the part of the
crate whose code is in `src/lib.rs` and `src/pair.rs`:

- the slot type `Pair<K, V>` (`Present((K, V))` or `Absent`) and its
  operations `default`, `is_some`, `unwrap` and `as_mut` — module `Pairs`,
  file `pair.dfy`, written as functions over a datatype;
- the map `Map<K, V, N>`, exactly `N` slots, with its derived `Clone`, and the
  two iterator records `MapIter` and `MapIntoIter`, each a cursor `pos` plus a
  shared reference to the map's slot array — module `Micromap`, file
  `map.dfy`, written as classes over an `array`; `Clone` is a constructor that
  copies the slots of an existing map into a new array of its own;
- the number of stored pairs (what `len()` reports) as a function over the
  slots, enough to state the crate's documentation example.

`Map` is a class whose `N` and `pairs` are `const`: the array object and its
length can never be replaced, so the capacity of a map is fixed for its whole
life, while the slots themselves stay writable. The key type is declared
`K(==, !new)`: equality is the only thing the model may ask of keys. Both `K`
and `V` are declared `!new`, so they cannot contain references to objects;
copying such a value copies all of it, which is what `Copy` on keys and
`Clone` on values give in the source. The iterators hold the very array object
of the map they came from (`it.pairs == m.pairs`). The methods that create them
have no `modifies` clause, so creating an iterator cannot change the map's
slots; the `unchanged(pairs)` in their contracts follows from that frame and
from `pairs` being `const`.

## Model

| member | source | states |
|---|---|---|
| `Pairs.IsSome` | src/pair.rs:31-36 | a slot reports a pair exactly when it is not the default (empty) slot |
| `Pairs.Unwrap` | src/pair.rs:38-43 | callable only on an occupied slot (the empty case panics); returns exactly the stored pair, so `Present(unwrap(s)) == s` |
| `Pairs.AsMut` | src/pair.rs:45-50 | gives `Some` exactly when the slot is occupied, `None` exactly when it is empty, and the pair it gives is the one stored in the slot |
| `Pairs.WriteThrough` | src/pair.rs:45-50 | assigning a pair through the reference `as_mut` hands out keeps the slot occupied and makes it expose the new pair; an empty slot gives no reference and stays empty |
| `Pairs.ExactlyOneState` | src/lib.rs:44-47 | every slot is either `Present` of the pair `unwrap` returns or `Absent`, with no third state |
| `Pairs.DefaultIsEmpty` | src/pair.rs:24-28 | the default slot is `Absent`, reports no pair and exposes none |
| `Pairs.AsMutExposesStoredPair` | src/pair.rs:45-50 | on an occupied slot `as_mut` exposes the same pair `unwrap` returns, writing it back changes nothing, and after any write `unwrap` returns what was written |
| `Micromap.Len` | src/lib.rs:29 | the number of occupied slots is at most the capacity; it is 0 exactly when every slot is empty and equals the capacity exactly when every slot is occupied |
| `Micromap.EmptySlots` | src/lib.rs:27 | a freshly created map has `n` slots and holds no pair |
| `Micromap.LenStore` | src/lib.rs:28-29 | storing a pair into one slot raises the length by one when that slot was empty and leaves it unchanged when it was occupied |
| `Micromap.FreshMapWithOnePair` | src/lib.rs:27-29 | a fresh map of any capacity with one pair stored, in whichever slot, has length 1 |
| `Micromap.DocExample` | src/lib.rs:25-30 | the documentation example: a fresh map of capacity 10 into which `(1, "Hello, world!")` is stored has length 1 |
| `Micromap.Map.Slots` | src/lib.rs:51-53 | a map's storage is always exactly `N` slots |
| `Micromap.Map.constructor` | src/lib.rs:51-53 | a map built from a sequence of slots has that many slots, in that order, in a fresh array |
| `Micromap.Map.New` | src/lib.rs:27 | a new map of capacity `n` has `n` default slots and length 0 |
| `Micromap.Map.Clone` | src/lib.rs:50-53 | cloning gives a new map with its own fresh array, not shared with the original, of the same capacity and with slot-by-slot equal contents |
| `Micromap.Map.Iter` | src/lib.rs:56-59 | the borrowing iterator shares the map's own array, starts at slot 0, and creating it leaves the map's slots unchanged |
| `Micromap.Map.IntoIter` | src/lib.rs:62-65 | the into-iterator also only shares the map's array: the map keeps all its slots and stays valid |
| `Micromap.MapIter.constructor` | src/lib.rs:56-59 | the record holds the given cursor and a reference to the given slot array, and modifies no slot |
| `Micromap.MapIntoIter.constructor` | src/lib.rs:62-65 | the same record shape, with the same read-only reference |

## Left out

- Insert, get, get_mut, remove, contains_key, len, is_empty, capacity, clear, iterator stepping and the full-map panic: their code is in `src/map.rs`, which is not part of this model. Nothing is claimed about them beyond the documentation example.
- `Micromap.Len`: stands for `len()` as the count of occupied slots; the real `len()` is in `src/map.rs`, which is not part of this model.
- `Micromap.FreshMapWithOnePair` and `Micromap.DocExample`: model `insert` on a fresh map only as "one empty slot becomes occupied", at any index, because the insert algorithm (which slot it picks) is in `src/map.rs`.
- `Micromap.Map.New`: assumed, not shown: `Map::new()` fills every slot with `Pair::default()`. Its code is in `src/map.rs`, which is not part of this model.
- `Micromap.Map.Iter` and `Micromap.Map.IntoIter`: assumed, not shown: both cursors start at slot 0. `iter()` and `into_iter()` are in `src/map.rs`, which is not part of this model.
- The capacity `N` and the cursors `pos` are `nat`; their `usize` width is not modelled.
- `Micromap.MapIter.constructor` and `Micromap.MapIntoIter.constructor`: the read-only nature of the shared borrow is captured only for the creation of an iterator. The iterator classes have no methods, and their `pairs` field is an ordinary array reference through which Dafny code could write; the model does not forbid such writes.
- Ownership of the inline array: the constructors always allocate a fresh array, so no two maps share slots, but Dafny's type system does not prevent another reference to a map's array from being taken later.
- Serialization (`src/serialization.rs`, not part of this model): an adapter over an external serialization framework.
- The test-only logger set-up (src/lib.rs:67-81): global I/O initialisation through external crates.
- The empty test `boom` (src/pair.rs:53-59): it has no behaviour.
- Rust lifetimes and the `&mut` borrow from `as_mut`: `as_mut` returns the stored pair as an `Option`, and `WriteThrough` gives the slot after a write through that borrow.
- `Clone` on keys and values is a copy: `K` and `V` are declared `!new`, so they hold no references and a copy is a full clone. Maps whose keys or values are reference types are not modelled.
