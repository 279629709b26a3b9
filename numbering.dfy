/** The "smallest number not yet taken" rule shared by the display-number
    search and by the host's descriptor allocation. */
module Numbering {

  /** The least natural number at or above `from` that is not in `used`. */
  function LeastFreeFrom(used: set<int>, from: nat): (r: nat)
    ensures r >= from && r !in used
    ensures forall j :: from <= j < r ==> j in used
    decreases |used|
  {
    if from !in used then from
    else
      var r := LeastFreeFrom(used - {from}, from + 1);
      assert forall j :: from <= j < r ==> j in used by {
        forall j | from <= j < r ensures j in used {
          if j > from {
            assert j in used - {from};
          }
        }
      }
      r
  }

  /** The least natural number that is not in `used`. */
  function LeastFree(used: set<int>): (r: nat)
    ensures r !in used
    ensures forall j :: 0 <= j < r ==> j in used
  {
    LeastFreeFrom(used, 0)
  }

  /** The two properties of LeastFree determine it: any number that is free
      and has only taken numbers below it is the least free one. */
  lemma LeastFreeUnique(used: set<int>, n: nat)
    requires n !in used
    requires forall j :: 0 <= j < n ==> j in used
    ensures LeastFree(used) == n
  {
  }

  /** Taking the least free number moves the next least free number strictly up. */
  lemma LeastFreeAfterTaking(used: set<int>)
    ensures LeastFree(used + {LeastFree(used)}) > LeastFree(used)
  {
  }
}
