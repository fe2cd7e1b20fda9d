/** The three time-level indices `taum1, tau, taup1` of the multi-step
    integrator and the relabelling the run loop applies after every completed
    iteration (ecosys3D/ecosys3D.py:165). */
module TimeLevels {

  datatype Levels = Levels(taum1: int, tau: int, taup1: int)

  predicate Distinct(l: Levels)
  {
    l.taum1 != l.tau && l.tau != l.taup1 && l.taup1 != l.taum1
  }

  /** `taum1, tau, taup1 = tau, taup1, taum1`: past takes the present, present
      the future, and the future reuses the old past. */
  function Rotate(l: Levels): (r: Levels)
    ensures r.taum1 == l.tau && r.tau == l.taup1 && r.taup1 == l.taum1
    ensures Distinct(r) <==> Distinct(l)
    ensures r == l <==> l.taum1 == l.tau == l.taup1
  {
    Levels(l.tau, l.taup1, l.taum1)
  }

  /** `n` successive rotations. */
  function RotateN(l: Levels, n: nat): Levels
  {
    if n == 0 then l else Rotate(RotateN(l, n - 1))
  }

  /** How many of the three levels hold the index `x`. */
  function Occurrences(l: Levels, x: int): nat
  {
    (if l.taum1 == x then 1 else 0) + (if l.tau == x then 1 else 0) + (if l.taup1 == x then 1 else 0)
  }

  /** Rotation permutes the labels: every index is held by as many levels
      after any number of rotations as before. */
  lemma {:induction false} RotateNPermutes(l: Levels, n: nat)
    ensures forall x :: Occurrences(RotateN(l, n), x) == Occurrences(l, x)
  {
    if n == 0 {
      assert RotateN(l, n) == l;
    } else {
      RotateNPermutes(l, n - 1);
      assert RotateN(l, n) == Rotate(RotateN(l, n - 1));
    }
  }

  /** Distinct levels stay distinct under rotation, and only they do. */
  lemma {:induction false} RotateNDistinct(l: Levels, n: nat)
    ensures Distinct(RotateN(l, n)) <==> Distinct(l)
  {
    if n == 0 {
      assert RotateN(l, n) == l;
    } else {
      RotateNDistinct(l, n - 1);
      assert RotateN(l, n) == Rotate(RotateN(l, n - 1));
    }
  }

  /** Three rotations restore the original assignment: the relabelling is a
      3-cycle, so only `n % 3` matters. */
  lemma {:induction false} RotateNPeriodic(l: Levels, n: nat)
    ensures RotateN(l, n) == RotateN(l, n % 3)
  {
    if n >= 3 {
      RotateNPeriodic(l, n - 3);
      RotateNSplit(l, n - 3, 3);
      RotateThrice(RotateN(l, n - 3));
      assert (n - 3) % 3 == n % 3;
    }
  }

  /** Three rotations are the identity. */
  lemma RotateThrice(l: Levels)
    ensures RotateN(l, 3) == l
  {
    assert RotateN(l, 1) == Rotate(l);
    assert RotateN(l, 2) == Rotate(Rotate(l));
  }

  /** `n + m` rotations are `m` rotations applied after `n`. */
  lemma {:induction false} RotateNSplit(l: Levels, n: nat, m: nat)
    ensures RotateN(l, n + m) == RotateN(RotateN(l, n), m)
  {
    if m > 0 {
      RotateNSplit(l, n, m - 1);
    }
  }
}
