/** Removing an element of a list in place, as memmove does it. */
module Removal {
  /** With the elements before t dealt with and reduced to done, the element at the index |done| is the one
      at t, and removing it leaves the elements after t to be dealt with. */
  lemma AtFront<T>(done: seq<T>, list: seq<T>, t: nat)
    requires t < |list|
    ensures var now, i := done + list[t..], |done|;
      && now[i] == list[t] && now[..i] + now[i + 1..] == done + list[t + 1..]
      && now == (done + [list[t]]) + list[t + 1..]
  {
  }
}
