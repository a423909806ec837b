/**
 * One slot of a map's fixed storage (the enum `Pair` of src/lib.rs) and the
 * four operations src/pair.rs gives it.
 */
module Pairs {
  import opened Wrappers

  /** A slot either stores a key-value pair or stores nothing; there is no third state. */
  datatype Pair<K, V> = Present(kv: (K, V)) | Absent

  /** The slot a storage array starts out with (`impl Default for Pair`). */
  function Default<K, V>(): Pair<K, V>
  {
    Absent
  }

  /** True when the slot stores a pair; false exactly on the default slot. */
  function IsSome<K, V>(s: Pair<K, V>): (r: bool)
    ensures r <==> s != Default()
  {
    match s
    case Absent => false
    case Present(_) => true
  }

  /**
   * The stored pair. On an empty slot the source panics, so the caller must
   * know the slot is occupied.
   */
  function Unwrap<K, V>(s: Pair<K, V>): (r: (K, V))
    requires IsSome(s)
    ensures Present(r) == s
  {
    match s
    case Present(p) => (p.0, p.1)
  }

  /**
   * Access to the stored pair, if any. The borrow itself is not modelled: the
   * result is the stored pair, and `WriteThrough` says what assigning
   * through it does.
   */
  function AsMut<K, V>(s: Pair<K, V>): (r: Option<(K, V)>)
    ensures r.Some? <==> IsSome(s)
    ensures r.Some? ==> s == Present(r.value)
  {
    match s
    case Present(x) => Some(x)
    case Absent => None
  }

  /**
   * The slot after `*x = p` on the reference `as_mut` gave out; an empty slot
   * gives no reference, so nothing is written into it.
   */
  function WriteThrough<K, V>(s: Pair<K, V>, p: (K, V)): (r: Pair<K, V>)
    ensures IsSome(r) == IsSome(s)
    ensures IsSome(s) ==> AsMut(r) == Some(p)
    ensures !IsSome(s) ==> r == s
  {
    match AsMut(s)
    case Some(_) => Present(p)
    case None => s
  }

  /** Every slot is in exactly one of the two states. */
  lemma ExactlyOneState<K, V>(s: Pair<K, V>)
    ensures IsSome(s) ==> s == Present(Unwrap(s))
    ensures !IsSome(s) ==> s == Absent
  {
  }

  /** The default slot is empty: it reports no pair and exposes none. */
  lemma DefaultIsEmpty<K, V>()
    ensures Default<K, V>() == Absent
    ensures !IsSome(Default<K, V>())
    ensures AsMut(Default<K, V>()) == None
  {
  }

  /**
   * `as_mut` exposes the stored pair itself: what it gives is what `unwrap`
   * would return, writing it straight back leaves the slot as it was, and
   * any write keeps the slot occupied.
   */
  lemma AsMutExposesStoredPair<K, V>(s: Pair<K, V>, q: (K, V))
    requires IsSome(s)
    ensures AsMut(s) == Some(Unwrap(s))
    ensures WriteThrough(s, Unwrap(s)) == s
    ensures Unwrap(WriteThrough(s, q)) == q
  {
  }
}
