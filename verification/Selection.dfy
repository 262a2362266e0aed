/** Picking elements out of a sequence: all that qualify, none other, in their order. */
module Selection {

  ghost predicate PicksAt<T(!new)>(picked: seq<T>, from: seq<T>, at: seq<nat>, keep: T -> bool) {
    |at| == |picked| &&
    (forall i :: 0 <= i < |at| ==> at[i] < |from| && picked[i] == from[at[i]]) &&
    (forall i, j :: 0 <= i < j < |at| ==> at[i] < at[j]) &&
    forall k :: 0 <= k < |from| ==> (keep(from[k]) <==> k in at)
  }

  ghost predicate Picks<T(!new)>(picked: seq<T>, from: seq<T>, keep: T -> bool) {
    exists at :: PicksAt(picked, from, at, keep)
  }

  lemma PicksNothing<T(!new)>(keep: T -> bool)
    ensures Picks([], [], keep)
  {
    assert PicksAt([], [], [], keep);
  }

  /** One more element at the end is picked exactly if it qualifies. */
  lemma PicksLast<T(!new)>(picked: seq<T>, from: seq<T>, x: T, keep: T -> bool)
    requires Picks(picked, from, keep)
    ensures Picks(if keep(x) then picked + [x] else picked, from + [x], keep)
  {
    var at: seq<nat> :| PicksAt(picked, from, at, keep);
    var n: nat := |from|;
    forall k | k in at ensures k < n {
      var i :| 0 <= i < |at| && at[i] == k;
      assert picked[i] == from[at[i]];
    }
    if keep(x) {
      PickOneMore(picked, from, x, at, keep);
    } else {
      assert PicksAt(picked, from + [x], at, keep);
    }
  }

  lemma PickOneMore<T(!new)>(picked: seq<T>, from: seq<T>, x: T, at: seq<nat>, keep: T -> bool)
    requires PicksAt(picked, from, at, keep) && keep(x) && forall k :: k in at ==> k < |from|
    ensures PicksAt(picked + [x], from + [x], at + [|from|], keep)
  {
    var n: nat := |from|;
    var all, more, whole := at + [n], picked + [x], from + [x];
    forall i | 0 <= i < |all| ensures all[i] < |whole| && more[i] == whole[all[i]] {
      assert i < |at| ==> all[i] == at[i] && picked[i] == from[at[i]];
    }
    forall i, j | 0 <= i < j < |all| ensures all[i] < all[j] {
      assert at[i] in at;
    }
    forall k | 0 <= k < |whole| ensures keep(whole[k]) <==> k in all {
      assert k < n ==> whole[k] == from[k];
    }
  }
}
