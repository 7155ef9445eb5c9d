/**
 What a `SequencePatcher` does to a whole stream of values. The stream is also read as a walk on
 the unbounded integers, `Position` for the outputs and `Travel` for the inputs, which is where
 "ahead of" and "behind" have a meaning.
 */
module PacketStream {
  import opened Circular
  import opened SequencePatching

  /**
   A patcher for values up to `max` that starts at `base`. The gap lies within the window in which
   the gap test is exact.
   */
  datatype Params = Params(max: nat, gap: nat, base: nat) {
    ghost predicate Valid() {
      max >= 3 && gap <= max / 4 && base <= max
    }
  }

  ghost predicate Stream(max: nat, vs: seq<nat>) {
    forall i | 0 <= i < |vs| :: vs[i] <= max
  }

  /** The next output when the output follows a source that moved from `reference` to `value`. */
  function Follow(max: nat, gap: nat, current: nat, reference: nat, value: nat): (next: nat)
    requires gap <= max && current <= max && reference <= max && value <= max
    ensures next <= max
  {
    var n := max + 1;
    WrapAdd(n, current, if Distance(n, reference, value) > gap then gap else Forward(n, reference, value))
  }

  /** The patcher jumps exactly where the source does. */
  lemma AdvanceFollows(max: nat, gap: nat, current: nat, reference: nat, value: nat)
    requires gap <= max / 4 && current <= max && reference <= max && value <= max
    ensures Advance(max, gap, current, reference, value) == Follow(max, gap, current, reference, value)
  {
  }

  lemma FollowCommutesWithBase(max: nat, gap: nat, current: nat, reference: nat, value: nat, k: nat)
    requires gap <= max && current <= max && reference <= max && value <= max && k <= max
    ensures Follow(max, gap, WrapAdd(max + 1, current, k), reference, value)
         == WrapAdd(max + 1, Follow(max, gap, current, reference, value), k)
  {
  }

  lemma FollowIgnoresInputShift(max: nat, gap: nat, current: nat, reference: nat, value: nat, k: nat)
    requires gap <= max && current <= max && reference <= max && value <= max && k <= max
    ensures Follow(max, gap, current, WrapAdd(max + 1, reference, k), WrapAdd(max + 1, value, k))
         == Follow(max, gap, current, reference, value)
  {
    ForwardIsShiftInvariant(max + 1, reference, value, k);
    ForwardIsShiftInvariant(max + 1, value, reference, k);
  }

  /** The output for the value at index `i`. */
  function Output(p: Params, vs: seq<nat>, i: nat): (out: nat)
    requires p.gap <= p.max && p.base <= p.max && Stream(p.max, vs) && i < |vs|
    ensures out <= p.max
    decreases i
  {
    if i == 0 then p.base else Follow(p.max, p.gap, Output(p, vs, i - 1), vs[i - 1], vs[i])
  }

  function Outputs(p: Params, vs: seq<nat>): (outs: seq<nat>)
    requires p.gap <= p.max && p.base <= p.max && Stream(p.max, vs)
    ensures Stream(p.max, outs)
  {
    seq(|vs|, i requires 0 <= i < |vs| => Output(p, vs, i))
  }

  /** The source of the stream jumps at `i` when the value is further than the gap from its predecessor. */
  predicate Jump(p: Params, vs: seq<nat>, i: nat)
    requires Stream(p.max, vs) && 0 < i < |vs|
  {
    Distance(p.max + 1, vs[i - 1], vs[i]) > p.gap
  }

  /** The number of jumps up to and including index `i`. */
  function Epoch(p: Params, vs: seq<nat>, i: nat): nat
    requires Stream(p.max, vs) && i < |vs|
  {
    if i == 0 then 0 else Epoch(p, vs, i - 1) + if Jump(p, vs, i) then 1 else 0
  }

  /** The unbounded integer the inputs have walked to at `i`, always along the shorter arc. */
  function Travel(max: nat, vs: seq<nat>, i: nat): int
    requires Stream(max, vs) && i < |vs|
  {
    if i == 0 then vs[0] else Travel(max, vs, i - 1) + Offset(max + 1, vs[i - 1], vs[i])
  }

  /** The unbounded integer the outputs are meant to walk to at `i`. */
  function Position(p: Params, vs: seq<nat>, i: nat): int
    requires Stream(p.max, vs) && i < |vs|
  {
    if i == 0 then p.base
    else Position(p, vs, i - 1) + if Jump(p, vs, i) then p.gap else Offset(p.max + 1, vs[i - 1], vs[i])
  }

  lemma FollowMovesResidue(p: Params, position: int, reference: nat, value: nat)
    requires p.Valid() && reference <= p.max && value <= p.max
    ensures var n := p.max + 1;
            var move := if Distance(n, reference, value) > p.gap then p.gap else Offset(n, reference, value);
            Follow(p.max, p.gap, Residue(n, position), reference, value) == Residue(n, position + move)
  {
    var n := p.max + 1;
    ResidueAfterMove(n, position, if Distance(n, reference, value) > p.gap then p.gap else Offset(n, reference, value));
  }

  /** The outputs are the residues of the intended walk. */
  lemma {:induction false} OutputRefinesPosition(p: Params, vs: seq<nat>, i: nat)
    requires p.Valid() && Stream(p.max, vs) && i < |vs|
    ensures Output(p, vs, i) == Residue(p.max + 1, Position(p, vs, i))
  {
    if i == 0 {
    } else {
      OutputRefinesPosition(p, vs, i - 1);
      FollowMovesResidue(p, Position(p, vs, i - 1), vs[i - 1], vs[i]);
    }
  }

  lemma {:induction false} EpochIsMonotone(p: Params, vs: seq<nat>, i: nat, j: nat)
    requires Stream(p.max, vs) && i <= j < |vs|
    ensures Epoch(p, vs, i) <= Epoch(p, vs, j)
    decreases j
  {
    if i == j {
    } else {
      EpochIsMonotone(p, vs, i, j - 1);
    }
  }

  /** Within an epoch the outputs move exactly as the inputs do, on the circle and on the integers. */
  lemma {:induction false} EpochPreservesDifferences(p: Params, vs: seq<nat>, i: nat, j: nat)
    requires p.Valid() && Stream(p.max, vs) && i <= j < |vs|
    requires Epoch(p, vs, i) == Epoch(p, vs, j)
    ensures Forward(p.max + 1, Output(p, vs, i), Output(p, vs, j)) == Forward(p.max + 1, vs[i], vs[j])
    ensures Position(p, vs, j) - Position(p, vs, i) == Travel(p.max, vs, j) - Travel(p.max, vs, i)
    decreases j
  {
    if i == j {
    } else {
      EpochIsMonotone(p, vs, i, j - 1);
      EpochPreservesDifferences(p, vs, i, j - 1);
    }
  }

  // ----- Switching sources never repeats a number -----

  /** Every value is at most `r` behind the highest value its epoch has reached. */
  ghost predicate LagWithin(p: Params, vs: seq<nat>, r: nat)
    requires Stream(p.max, vs)
  {
    forall i, j | 0 <= i <= j < |vs| && Epoch(p, vs, i) == Epoch(p, vs, j) ::
      Travel(p.max, vs, j) >= Travel(p.max, vs, i) - r
  }

  /** The outputs span less than one turn of the circle. */
  ghost predicate SpanWithinTurn(p: Params, vs: seq<nat>)
    requires Stream(p.max, vs)
  {
    forall i, j | 0 <= i < |vs| && 0 <= j < |vs| :: Position(p, vs, j) - Position(p, vs, i) <= p.max
  }

  /** The index at which the epoch of `j` began. */
  function EpochStart(p: Params, vs: seq<nat>, j: nat): (s: nat)
    requires Stream(p.max, vs) && j < |vs|
    ensures s <= j && Epoch(p, vs, s) == Epoch(p, vs, j)
    ensures s == 0 ==> Epoch(p, vs, j) == 0
    ensures s > 0 ==> Jump(p, vs, s) && Epoch(p, vs, s - 1) + 1 == Epoch(p, vs, j)
  {
    if j == 0 || Jump(p, vs, j) then j else EpochStart(p, vs, j - 1)
  }

  lemma LagOfPositions(p: Params, vs: seq<nat>, r: nat, i: nat, j: nat)
    requires p.Valid() && Stream(p.max, vs) && LagWithin(p, vs, r)
    requires i <= j < |vs| && Epoch(p, vs, i) == Epoch(p, vs, j)
    ensures Position(p, vs, j) >= Position(p, vs, i) - r
  {
    EpochPreservesDifferences(p, vs, i, j);
  }

  /** A later epoch stays ahead of every earlier one, by all of the gap that lag does not use up. */
  lemma {:induction false} LaterEpochIsAhead(p: Params, vs: seq<nat>, r: nat, i: nat, j: nat)
    requires p.Valid() && Stream(p.max, vs) && LagWithin(p, vs, r) && 2 * r < p.gap
    requires i < |vs| && j < |vs| && Epoch(p, vs, i) < Epoch(p, vs, j)
    ensures Position(p, vs, j) >= Position(p, vs, i) + p.gap - 2 * r
    decreases j
  {
    var s := EpochStart(p, vs, j);
    LagOfPositions(p, vs, r, s, j);
    var last := s - 1;
    assert Position(p, vs, s) == Position(p, vs, last) + p.gap;
    if Epoch(p, vs, i) < Epoch(p, vs, last) {
      LaterEpochIsAhead(p, vs, r, i, last);
    } else {
      if last < i {
        EpochIsMonotone(p, vs, s, i);
      }
      LagOfPositions(p, vs, r, i, last);
    }
  }

  lemma SameOutputSamePosition(p: Params, vs: seq<nat>, i: nat, j: nat)
    requires p.Valid() && Stream(p.max, vs) && SpanWithinTurn(p, vs)
    requires i < |vs| && j < |vs| && Output(p, vs, i) == Output(p, vs, j)
    ensures Position(p, vs, i) == Position(p, vs, j)
  {
    OutputRefinesPosition(p, vs, i);
    OutputRefinesPosition(p, vs, j);
    ResidueIsInjective(p.max + 1, Position(p, vs, i), Position(p, vs, j));
  }

  lemma SamePositionSameOutput(p: Params, vs: seq<nat>, i: nat, j: nat)
    requires p.Valid() && Stream(p.max, vs) && i < |vs| && j < |vs|
    requires Position(p, vs, i) == Position(p, vs, j)
    ensures Output(p, vs, i) == Output(p, vs, j)
  {
    OutputRefinesPosition(p, vs, i);
    OutputRefinesPosition(p, vs, j);
  }

  /** No false duplicates: equal numbers are sent only for equal inputs of one epoch. */
  lemma NoFalseDuplicates(p: Params, vs: seq<nat>, r: nat, i: nat, j: nat)
    requires p.Valid() && Stream(p.max, vs) && LagWithin(p, vs, r) && 2 * r < p.gap
    requires SpanWithinTurn(p, vs)
    requires i <= j < |vs| && Output(p, vs, i) == Output(p, vs, j)
    ensures Epoch(p, vs, i) == Epoch(p, vs, j) && vs[i] == vs[j]
  {
    SameOutputSamePosition(p, vs, i, j);
    EpochIsMonotone(p, vs, i, j);
    if Epoch(p, vs, i) < Epoch(p, vs, j) {
      LaterEpochIsAhead(p, vs, r, i, j);
    }
    EpochPreservesDifferences(p, vs, i, j);
    ForwardIsZeroOnlyToItself(p.max + 1, vs[i], vs[j]);
  }

  /** A packet overtaken by `r`, then a jump, then a packet that lags until it meets the overtaken one. */
  function Collision(gap: nat, r: nat): seq<nat>
    requires r <= gap
  {
    [0, r, 0, 2 * gap, gap + r]
  }

  lemma CollisionWalk(p: Params, r: nat)
    requires p.Valid() && 0 < p.gap && r <= p.gap
    ensures var vs := Collision(p.gap, r);
            && Stream(p.max, vs)
            && Epoch(p, vs, 0) == Epoch(p, vs, 1) == Epoch(p, vs, 2) == 0 && Epoch(p, vs, 3) == Epoch(p, vs, 4) == 1
            && Travel(p.max, vs, 0) == 0 && Travel(p.max, vs, 1) == r && Travel(p.max, vs, 2) == 0
            && Travel(p.max, vs, 3) == 2 * p.gap && Travel(p.max, vs, 4) == p.gap + r
            && Position(p, vs, 0) == p.base && Position(p, vs, 1) == p.base + r && Position(p, vs, 2) == p.base
            && Position(p, vs, 3) == p.base + p.gap && Position(p, vs, 4) == p.base + r
  {
    var vs, n := Collision(p.gap, r), p.max + 1;
    assert Offset(n, 0, r) == r && Offset(n, r, 0) == 0 - r;
    assert Offset(n, 0, 2 * p.gap) == 2 * p.gap && Offset(n, 2 * p.gap, p.gap + r) == r - p.gap;
    assert !Jump(p, vs, 1) && !Jump(p, vs, 2) && Jump(p, vs, 3) && !Jump(p, vs, 4);
  }

  lemma CollisionLags(p: Params, r: nat)
    requires p.Valid() && 0 < p.gap <= 2 * r && r <= p.gap
    ensures var vs := Collision(p.gap, r); Stream(p.max, vs) && LagWithin(p, vs, r) && SpanWithinTurn(p, vs)
  {
    CollisionWalk(p, r);
    var vs := Collision(p.gap, r);
    forall i, j | 0 <= i <= j < |vs| && Epoch(p, vs, i) == Epoch(p, vs, j)
      ensures Travel(p.max, vs, j) >= Travel(p.max, vs, i) - r
    {
      assert i == 0 || i == 1 || i == 2 || i == 3 || i == 4;
    }
    forall i, j | 0 <= i < |vs| && 0 <= j < |vs|
      ensures Position(p, vs, j) - Position(p, vs, i) <= p.max
    {
      assert i == 0 || i == 1 || i == 2 || i == 3 || i == 4;
      assert j == 0 || j == 1 || j == 2 || j == 3 || j == 4;
    }
  }

  /**
   The bound on the lag cannot be relaxed: for every lag with `2 * r >= gap` some stream within that
   lag, spanning less than a turn, sends one number for two different inputs of different epochs.
   */
  lemma LagBoundIsTight(p: Params, r: nat) returns (vs: seq<nat>, i: nat, j: nat)
    requires p.Valid() && 0 < p.gap <= 2 * r
    ensures Stream(p.max, vs) && LagWithin(p, vs, r) && SpanWithinTurn(p, vs)
    ensures i < j < |vs| && Output(p, vs, i) == Output(p, vs, j)
    ensures Epoch(p, vs, i) != Epoch(p, vs, j) && vs[i] != vs[j]
  {
    var lag := if r <= p.gap then r else p.gap;
    vs, i, j := Collision(p.gap, lag), 1, 4;
    CollisionLags(p, lag);
    CollisionWalk(p, lag);
    SamePositionSameOutput(p, vs, i, j);
  }

  // ----- Only differences of the input matter -----

  function Shifted(max: nat, vs: seq<nat>, k: nat): (ws: seq<nat>)
    requires Stream(max, vs) && k <= max
    ensures Stream(max, ws)
  {
    seq(|vs|, i requires 0 <= i < |vs| => WrapAdd(max + 1, vs[i], k))
  }

  /** Adding a constant to every input, modulo the type, leaves every output as it was. */
  lemma {:induction false} InputShiftIsInvisible(p: Params, vs: seq<nat>, k: nat, i: nat)
    requires p.Valid() && Stream(p.max, vs) && k <= p.max && i < |vs|
    ensures Output(p, Shifted(p.max, vs, k), i) == Output(p, vs, i)
  {
    if i == 0 {
    } else {
      InputShiftIsInvisible(p, vs, k, i - 1);
      var ws := Shifted(p.max, vs, k);
      var current, reference, value := Output(p, vs, i - 1), vs[i - 1], vs[i];
      FollowIgnoresInputShift(p.max, p.gap, current, reference, value, k);
      assert ws[i - 1] == WrapAdd(p.max + 1, reference, k) && ws[i] == WrapAdd(p.max + 1, value, k);
    }
  }

  /** Adding a constant to the first output adds it to all of them. */
  lemma {:induction false} BaseShiftIsAdded(p: Params, vs: seq<nat>, k: nat, i: nat)
    requires p.Valid() && Stream(p.max, vs) && k <= p.max && i < |vs|
    ensures Output(p.(base := WrapAdd(p.max + 1, p.base, k)), vs, i) == WrapAdd(p.max + 1, Output(p, vs, i), k)
  {
    if i == 0 {
    } else {
      BaseShiftIsAdded(p, vs, k, i - 1);
      FollowCommutesWithBase(p.max, p.gap, Output(p, vs, i - 1), vs[i - 1], vs[i], k);
    }
  }

  // ----- Patching twice -----

  /** Consecutive outputs are never further apart than the gap, so following them never jumps. */
  lemma FollowStaysClose(max: nat, gap: nat, current: nat, reference: nat, value: nat)
    requires gap <= max / 4 && current <= max && reference <= max && value <= max
    ensures Distance(max + 1, current, Follow(max, gap, current, reference, value)) <= gap
  {
  }

  lemma FollowOnlyRebases(p: Params, q: Params, current: nat, next: nat, second: nat)
    requires p.Valid() && q.Valid() && q.max == p.max && q.gap == p.gap && current <= p.max && next <= p.max
    requires Distance(p.max + 1, current, next) <= p.gap
    requires second == WrapAdd(p.max + 1, q.base, Forward(p.max + 1, p.base, current))
    ensures Follow(q.max, q.gap, second, current, next) == WrapAdd(p.max + 1, q.base, Forward(p.max + 1, p.base, next))
  {
    WrapAddForward(p.max + 1, q.base, p.base, current, next);
  }

  /** A second patcher behind the first never sees a jump; it only moves the base. */
  lemma {:induction false} SecondPatcherOnlyRebases(p: Params, q: Params, vs: seq<nat>, i: nat)
    requires p.Valid() && q.Valid() && q.max == p.max && q.gap == p.gap
    requires Stream(p.max, vs) && i < |vs|
    ensures Epoch(q, Outputs(p, vs), i) == 0
    ensures Output(q, Outputs(p, vs), i) == WrapAdd(p.max + 1, q.base, Forward(p.max + 1, p.base, Output(p, vs, i)))
  {
    if i == 0 {
    } else {
      SecondPatcherOnlyRebases(p, q, vs, i - 1);
      var outs := Outputs(p, vs);
      var current, next := Output(p, vs, i - 1), Output(p, vs, i);
      assert outs[i - 1] == current && outs[i] == next;
      FollowStaysClose(p.max, p.gap, current, vs[i - 1], vs[i]);
      FollowOnlyRebases(p, q, current, next, Output(q, outs, i - 1));
    }
  }

  /** The output at an index does not depend on what follows it. */
  lemma {:induction false} OutputIsCausal(p: Params, vs: seq<nat>, ws: seq<nat>, i: nat)
    requires p.gap <= p.max && p.base <= p.max && Stream(p.max, vs) && Stream(p.max, vs + ws) && i < |vs|
    ensures Output(p, vs + ws, i) == Output(p, vs, i)
  {
    if i == 0 {
    } else {
      OutputIsCausal(p, vs, ws, i - 1);
    }
  }
}
