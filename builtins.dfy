/** The few Python built-ins the scheduler relies on: `min`, `max` and list indexing. */
module Builtins {
  import opened Wrappers

  function Min(a: int, b: int): (r: int)
    ensures r <= a && r <= b
    ensures r == a || r == b
  {
    if a <= b then a else b
  }

  function Max(a: int, b: int): (r: int)
    ensures r >= a && r >= b
    ensures r == a || r == b
  {
    if a >= b then a else b
  }

  /** Python's `xs[i]`: a negative index counts from the end of the list, and an
      index outside `-|xs| .. |xs|-1` raises IndexError, modelled as None. */
  function Index<T>(xs: seq<T>, i: int): (r: Option<T>)
    ensures r.Some? <==> -|xs| <= i < |xs|
    ensures 0 <= i < |xs| ==> r == Some(xs[i])
    ensures i < 0 && r.Some? ==> r.value == xs[|xs| + i]
    ensures r.Some? ==> r.value in xs
  {
    if 0 <= i < |xs| then Some(xs[i])
    else if -|xs| <= i < 0 then Some(xs[|xs| + i])
    else None
  }
}
