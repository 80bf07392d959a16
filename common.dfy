/** Small shared vocabulary: optional values, position sides, positive prices. */
module Common {

  datatype Option<T> = None | Some(value: T)

  /** The two directions a position can take. */
  datatype Side = Long | Short

  /** Exchange prices are positive; every division by an entry price relies on this. */
  type Price = r: real | r > 0.0 witness 1.0

  function Abs(x: real): real
  {
    if x < 0.0 then -x else x
  }

  /** Python's `min(a, b)`: the first argument unless the second is strictly smaller. */
  function Min(a: real, b: real): real
  {
    if b < a then b else a
  }

  /** Dropping a key never grows a map. */
  lemma MapRemoveSize<K, V>(m: map<K, V>, k: K)
    ensures |m - {k}| <= |m|
  {
    assert (m - {k}).Keys <= m.Keys;
    SubsetSize((m - {k}).Keys, m.Keys);
  }

  lemma {:induction false} SubsetSize<T>(a: set<T>, b: set<T>)
    requires a <= b
    ensures |a| <= |b|
    decreases |b|
  {
    if a != {} {
      var x :| x in a;
      SubsetSize(a - {x}, b - {x});
    }
  }
}
