/**
 * The account-id counter. In the Java program it is a process-wide static
 * field read and advanced by every `new BankAccount()`; here it is an
 * explicit object that every constructor of an account is handed.
 */
module Ids {

  /** Each element strictly below the next one. */
  ghost predicate Increasing(s: seq<int>)
  {
    forall i :: 0 <= i < |s| - 1 ==> s[i] < s[i + 1]
  }

  /** Every earlier element strictly below every later one. */
  ghost predicate PairwiseIncreasing(s: seq<int>)
  {
    forall i, j :: 0 <= i < j < |s| ==> s[i] < s[j]
  }

  /**
   * Ids issued one after the other, each above its predecessor, are ordered
   * pairwise, and so no two of them are equal.
   */
  lemma {:induction false} IncreasingIsPairwise(s: seq<int>)
    requires Increasing(s)
    ensures PairwiseIncreasing(s)
  {
    if |s| > 1 {
      var t := s[..|s| - 1];
      assert Increasing(t) by {
        forall i | 0 <= i < |t| - 1 ensures t[i] < t[i + 1] {
          assert t[i] == s[i] && t[i + 1] == s[i + 1];
        }
      }
      IncreasingIsPairwise(t);
      forall i, j | 0 <= i < j < |s| ensures s[i] < s[j] {
        if j < |s| - 1 {
          assert s[i] == t[i] && s[j] == t[j];
        } else if i < j - 1 {
          assert s[i] == t[i] && s[j - 1] == t[j - 1];
          assert s[j - 1] < s[j];
        }
      }
    }
  }

  class IdCounter {
    /** The last id handed out; 0 before the first one. */
    var last: int
    /** Every id handed out so far, in the order they were handed out. */
    ghost var issued: seq<int>

    ghost predicate Valid()
      reads this
    {
      && 0 <= last
      && Increasing(issued)
      && (forall i :: 0 <= i < |issued| ==> 0 < issued[i] <= last)
      && (issued != [] ==> issued[|issued| - 1] == last)
      && (issued == [] ==> last == 0)
    }

    constructor ()
      ensures Valid() && last == 0 && issued == []
    {
      last := 0;
      issued := [];
    }

    /**
     * Hands out the next id: positive, and strictly above every id handed
     * out before it.
     */
    method Next() returns (id: int)
      requires Valid()
      modifies this
      ensures Valid()
      ensures id == old(last) + 1 && last == id && 0 < id
      ensures issued == old(issued) + [id]
      ensures forall i :: 0 <= i < |old(issued)| ==> old(issued)[i] < id
    {
      last := last + 1;
      id := last;
      issued := issued + [id];
    }
  }
}
