/**
 Arithmetic on the circle of the `n` values `0..n-1` of an unsigned integer type.
 `WrapAdd` and `WrapSub` are the wrapping operators of the type; the rest is vocabulary for
 stating what code built on them means.
 */
module Circular {

  function WrapAdd(n: nat, a: nat, b: nat): nat
    requires a < n && b < n
  {
    if a + b < n then a + b else a + b - n
  }

  function WrapSub(n: nat, a: nat, b: nat): nat
    requires a < n && b < n
  {
    if b <= a then a - b else a - b + n
  }

  /** The length of the arc that leads upwards from `a` to `b`. */
  function Forward(n: nat, a: nat, b: nat): nat
    requires a < n && b < n
  {
    if a <= b then b - a else b - a + n
  }

  /** The length of the shorter of the two arcs between `a` and `b`. */
  function Distance(n: nat, a: nat, b: nat): nat
    requires a < n && b < n
  {
    var up, down := Forward(n, a, b), Forward(n, b, a);
    if up <= down then up else down
  }

  /** The signed length of the shorter arc from `a` to `b`; a tie counts as forward. */
  function Offset(n: nat, a: nat, b: nat): int
    requires a < n && b < n
  {
    var up := Forward(n, a, b);
    if up <= n - up then up else up - n
  }

  lemma ForwardIsShiftInvariant(n: nat, a: nat, b: nat, k: nat)
    requires a < n && b < n && k < n
    ensures Forward(n, WrapAdd(n, a, k), WrapAdd(n, b, k)) == Forward(n, a, b)
  {
  }

  /** Arcs add up: from `b` to `c` and on to `d`. */
  lemma WrapAddForward(n: nat, a: nat, b: nat, c: nat, d: nat)
    requires a < n && b < n && c < n && d < n
    ensures WrapAdd(n, WrapAdd(n, a, Forward(n, b, c)), Forward(n, c, d)) == WrapAdd(n, a, Forward(n, b, d))
  {
  }

  lemma ForwardIsZeroOnlyToItself(n: nat, a: nat, b: nat)
    requires a < n && b < n
    ensures Forward(n, a, b) == 0 <==> a == b
  {
  }

  /** Where an integer lands on the circle. */
  function Residue(n: nat, u: int): (r: nat)
    requires n > 0
    ensures r < n
    decreases if u < 0 then n - u else u
  {
    if u < 0 then Residue(n, u + n) else if u < n then u else Residue(n, u - n)
  }

  lemma OneTurnMore(n: nat, turns: int)
    ensures (turns + 1) * n == turns * n + n
  {
  }

  /** It is a whole number of turns away, so it is the remainder of the division by `n`. */
  lemma {:induction false} ResidueIsRemainder(n: nat, u: int) returns (turns: int)
    requires n > 0
    ensures u == turns * n + Residue(n, u)
    decreases if u < 0 then n - u else u
  {
    if u < 0 {
      turns := ResidueIsRemainder(n, u + n);
      OneTurnMore(n, turns - 1);
      turns := turns - 1;
    } else if u < n {
      turns := 0;
    } else {
      turns := ResidueIsRemainder(n, u - n);
      OneTurnMore(n, turns);
      turns := turns + 1;
    }
  }

  /** Moving an integer by less than a turn moves its residue along the circle. */
  lemma {:induction false} ResidueAfterMove(n: nat, u: int, d: int)
    requires n > 0 && d < n && 0 < d + n
    ensures Residue(n, u + d) == WrapAdd(n, Residue(n, u), if d >= 0 then d else d + n)
    decreases if u < 0 then n - u else u
  {
    if u < 0 {
      ResidueAfterMove(n, u + n, d);
      TurnKeepsResidue(n, u + d);
    } else if u >= n {
      ResidueAfterMove(n, u - n, d);
      TurnKeepsResidue(n, u + d - n);
    } else if u + d < 0 {
      TurnKeepsResidue(n, u + d);
    }
  }

  lemma TurnKeepsResidue(n: nat, u: int)
    requires n > 0
    ensures Residue(n, u + n) == Residue(n, u)
  {
  }

  /** Integers less than a turn apart are equal once their residues are. */
  lemma ResidueIsInjective(n: nat, u: int, v: int)
    requires n > 0 && v - u < n && u - v < n && Residue(n, u) == Residue(n, v)
    ensures u == v
  {
    ResidueAfterMove(n, u, v - u);
  }
}
