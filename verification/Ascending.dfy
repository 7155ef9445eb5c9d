/** The keys of an ordered map, in the order an iteration visits them. */
module Ascending {

  predicate IsLeast(s: set<nat>, least: nat) {
    least in s && forall x | x in s :: least <= x
  }

  lemma IsLeastOfMore(s: set<nat>, some: nat, other: nat)
    requires some in s && IsLeast(s - {some}, other)
    ensures IsLeast(s, if other < some then other else some)
  {
    assert forall x | x in s :: x == some || x in s - {some};
  }

  lemma {:induction false} LeastExists(s: set<nat>)
    requires s != {}
    ensures exists least :: IsLeast(s, least)
    decreases s
  {
    var some :| some in s;
    if s == {some} {
      assert IsLeast(s, some);
    } else {
      LeastExists(s - {some});
      var other :| IsLeast(s - {some}, other);
      IsLeastOfMore(s, some, other);
    }
  }

  function Least(s: set<nat>): (least: nat)
    requires s != {}
    ensures IsLeast(s, least)
  {
    LeastExists(s);
    var least :| IsLeast(s, least);
    least
  }

  /** The elements of `s`, each once, from the least to the greatest. */
  function Elements(s: set<nat>): seq<nat> {
    if s == {} then [] else var least := Least(s); [least] + Elements(s - {least})
  }

  /** The list holds the elements of `s`, each once, in ascending order. */
  ghost predicate Lists(list: seq<nat>, s: set<nat>) {
    && |list| == |s|
    && (forall x :: x in list <==> x in s)
    && forall i, j | 0 <= i < j < |list| :: list[i] < list[j]
  }

  lemma ListsOneMore(least: nat, list: seq<nat>, s: set<nat>)
    requires Lists(list, s) && forall x | x in s :: least < x
    ensures Lists([least] + list, s + {least})
  {
    assert forall i | 0 <= i < |list| :: list[i] in s;
  }

  lemma {:induction false} ElementsAscend(s: set<nat>)
    ensures Lists(Elements(s), s)
    decreases s
  {
    if s == {} {
    } else {
      var least := Least(s);
      var others := s - {least};
      ElementsAscend(others);
      ListsOneMore(least, Elements(others), others);
      assert s == others + {least};
    }
  }
}
