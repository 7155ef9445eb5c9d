/**
 The renumbering of one RTP header field: the output follows the input inside `maxGap` and starts
 a new epoch, `maxGap` further on, when the input jumps.
 */
module SequencePatching {
  import opened Wrappers
  import opened Circular

  /**
   The distance the patcher measures between two values of a type whose largest value is `max`,
   and whether it took the arc across zero. Wrapping is considered only when one value lies within
   the window above `max` and the other within the window above zero.
   */
  function WrappingDifference(max: nat, v1: nat, v2: nat, overflowWindow: Option<nat>): (r: (nat, bool))
    requires v1 <= max && v2 <= max
    requires overflowWindow.Some? ==> overflowWindow.value <= max
    ensures r.0 == Forward(max + 1, v1, v2) || r.0 == Forward(max + 1, v2, v1)
    ensures r.1 <==> r.0 != if v1 < v2 then v2 - v1 else v1 - v2
    ensures var window := if overflowWindow.Some? then overflowWindow.value else max / 4;
            var distance := Distance(max + 1, v1, v2);
            if distance <= window then r.0 == distance else r.0 > window
  {
    if v1 == v2 then
      (0, false)
    else
      var rangeOverflow: nat := if overflowWindow.Some? then overflowWindow.value else max / 4;
      var hi := if v1 > v2 then v1 else v2;
      var lo := if v1 > v2 then v2 else v1;
      if hi > max - rangeOverflow && lo <= rangeOverflow then
        var d1 := WrapSub(max + 1, lo, hi);
        var d2: nat := hi - lo;
        if d1 < d2 then (d1, true) else (d2, false)
      else
        (hi - lo, false)
  }

  /** `WrappingDifference` with the default window exceeds `gap` on exactly the pairs further apart than `gap`. */
  ghost predicate GapTestIsExact(max: nat, gap: nat) {
    forall v1: nat, v2: nat | v1 <= max && v2 <= max ::
      WrappingDifference(max, v1, v2, None).0 > gap <==> Distance(max + 1, v1, v2) > gap
  }

  /**
   The gap test is exact for every gap up to the default window, and again for gaps so large that
   the test never fires; for each gap in between there is a pair it misjudges.
   */
  lemma GapTestExactness(max: nat, gap: nat)
    requires max >= 3 && gap <= max
    ensures GapTestIsExact(max, gap) <==> gap <= max / 4 || gap >= max - max / 4
  {
    var window := max / 4;
    if window < gap < max - window {
      var v1, v2 := 0, max - window;
      assert Distance(max + 1, v1, v2) == window + 1;
      assert WrappingDifference(max, v1, v2, None).0 == max - window;
    }
  }

  /** One step of the renumbering, from the last output and the last input to the next output. */
  function Advance(max: nat, gap: nat, current: nat, reference: nat, value: nat): (next: nat)
    requires gap <= max && current <= max && reference <= max && value <= max
    ensures next <= max
  {
    var jumped := WrappingDifference(max, reference, value, None).0 > gap;
    WrapAdd(max + 1, current, if jumped then gap else Forward(max + 1, reference, value))
  }

  class SequencePatcher {
    const max: nat
    const maxGap: nat
    var current: nat
    var reference: Option<nat>

    ghost predicate Valid()
      reads this
    {
      && maxGap <= max
      && current <= max
      && (reference.Some? ==> reference.value <= max)
    }

    constructor (max: nat, current: nat, maxGap: nat)
      requires current <= max && maxGap <= max
      ensures Valid()
      ensures this.max == max && this.maxGap == maxGap && this.current == current && reference == None
    {
      this.max := max;
      this.maxGap := maxGap;
      this.current := current;
      this.reference := None;
    }

    /**
     Inside the gap the output moves by exactly the arc from the previous input to this one, no
     matter whether that arc is a step forward or a step back.
     */
    method Process(value: nat) returns (out: nat)
      requires Valid() && value <= max
      modifies this
      ensures Valid()
      ensures reference == Some(value) && out == current
      ensures out == match old(reference)
                     case None => old(current)
                     case Some(last) => Advance(max, maxGap, old(current), last, value)
    {
      if reference.Some? {
        var (difference, _) := WrappingDifference(max, reference.value, value, None);
        if difference > maxGap {
          // A new epoch begins.
          reference := Some(value);
          current := WrapAdd(max + 1, current, maxGap);
        } else if WrapAdd(max + 1, reference.value, difference) == value {
          reference := Some(value);
          current := WrapAdd(max + 1, current, difference);
        } else {
          // A value from the past.
          reference := Some(value);
          current := WrapSub(max + 1, current, difference);
        }
      } else {
        reference := Some(value);
      }
      return current;
    }
  }
}
