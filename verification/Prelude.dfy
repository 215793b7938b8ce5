/** Result shapes shared by every module: absence, failure, and what one poll of a future answers. */
module Prelude {

  datatype Option<+T> = None | Some(value: T)

  datatype Result<+T, +E> = Ok(value: T) | Err(error: E)

  datatype Poll<+T> = Pending | Ready(value: T)

  function Min(a: nat, b: nat): nat { if a < b then a else b }

  function Max(a: nat, b: nat): nat { if a < b then b else a }

  /** How often `x` occurs. */
  ghost function Tally<T>(xs: seq<T>, x: T): nat {
    if xs == [] then 0 else Tally(xs[..|xs| - 1], x) + if xs[|xs| - 1] == x then 1 else 0
  }

  lemma TallySnoc<T>(xs: seq<T>, x: T, y: T)
    ensures Tally(xs + [y], x) == Tally(xs, x) + if x == y then 1 else 0
  {
    assert (xs + [y])[..|xs|] == xs;
  }

  lemma {:induction false} TallyWithout<T>(xs: seq<T>, more: seq<T>, x: T)
    requires x !in more
    ensures Tally(xs + more, x) == Tally(xs, x)
    decreases |more|
  {
    if more == [] {
      assert xs + more == xs;
    } else {
      assert (xs + more)[..|xs + more| - 1] == xs + more[..|more| - 1];
      TallyWithout(xs, more[..|more| - 1], x);
    }
  }
}
