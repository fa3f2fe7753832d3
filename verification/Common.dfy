/** Shared by every component. */
module Common {
  type Time = int  // microseconds since the epoch, UTC

  const SECOND: Time := 1_000_000

  datatype Option<+T> = None | Some(value: T)

  lemma {:induction false} SubsetSize<T>(s: set<T>, t: set<T>)
    requires s <= t
    ensures |s| <= |t|
  {
    if x :| x in s {
      SubsetSize(s - {x}, t - {x});
    }
  }
}
