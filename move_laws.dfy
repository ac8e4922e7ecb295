/**
 * Laws of the move algebra of module Moves: how negation, doubling, scaling,
 * merging, `base` and `affected_by` act, both on arbitrary strings (exactly
 * as the source's suffix tests behave) and on well-formed moves read as a face
 * and a number of quarter turns.
 */
module MoveLaws {
  import opened Moves

  /** Negation swaps `X` and `X'` and fixes `X2`, so it undoes itself on every well-formed move. */
  lemma NegInvolutive(m: Move)
    requires WellFormed(m)
    ensures Neg(Neg(m)) == m
    ensures Quarters(m) == 2 ==> Neg(m) == m
    ensures Quarters(m) != 2 ==> Neg(m) == FromTurn(Face(m), 4 - Quarters(m))
  {
    DecodeFromTurn(m);
  }

  /**
   * The neutral move is not closed under negation or doubling: `-Move("")` is
   * `Move("'")` and `Move("") * 2` is `Move("2")`, neither of which is a turn.
   */
  lemma NeutralNotClosed()
    ensures Neg(Neutral) == Move("'") && !Canonical(Neg(Neutral))
    ensures Double(Neutral) == Move("2") && Scale(Neutral, 2) == Move("2")
    ensures !Canonical(Scale(Neutral, 2))
  {
    assert Neutral.value + "'" == "'";
    assert Neutral.value + "2" == "2";
  }

  /** `m * i` depends only on `i` modulo 4, with one case per residue. */
  lemma ScalePeriodic(m: Move, i: int)
    ensures Scale(m, i) == Scale(m, i % MaxRotations) == Scale(m, i + MaxRotations)
    ensures i % MaxRotations == 2 ==> Scale(m, i) == Double(m)
    ensures i % MaxRotations == 3 ==> Scale(m, i) == Neg(m)
  {
    assert (i + MaxRotations) % MaxRotations == i % MaxRotations;
  }

  /** The doubling table: `X2` doubles to neutral, `X` to `X2`, and `X'` to `X` (not `X2`). */
  lemma DoubleTable(f: char)
    requires IsFace(f)
    ensures Double(FromTurn(f, 2)) == Neutral
    ensures Double(FromTurn(f, 1)) == FromTurn(f, 2)
    ensures Double(FromTurn(f, 3)) == FromTurn(f, 1)
  {
    FromTurnDecode(f, 1);
    FromTurnDecode(f, 2);
    FromTurnDecode(f, 3);
  }

  /**
   * Doubling an inverse quarter turn departs from the group law: turning `X'`
   * twice is a half turn, but `X'.double()`, and so `X' + X'`, give `X`.
   */
  lemma DoublingQuirk(f: char)
    requires IsFace(f)
    ensures Double(FromTurn(f, 3)) != FromTurn(f, 3 + 3)
    ensures Combine(FromTurn(f, 3), FromTurn(f, 3)) == One(FromTurn(f, 1))
  {
    FromTurnDecode(f, 3);
    DoubleTable(f);
  }

  /** A move followed by its negation cancels, for every string: `X2 + X2` and `Move("") + Move("'")` included. */
  lemma CancelRight(m: Move)
    ensures Combine(m, Neg(m)) == One(Neutral)
  {
  }

  /**
   * The neutral move is a left identity for every move except `Move("'")`,
   * which is its negation and so cancels with it.
   */
  lemma LeftIdentity(m: Move)
    ensures m != Move("'") ==> Combine(Neutral, m) == One(m)
    ensures Combine(Neutral, Move("'")) == One(Neutral)
    ensures Canonical(m) ==> Combine(Neutral, m) == One(m)
  {
    NeutralNotClosed();
  }

  /** The pairs of quarter-turn counts (modulo 4) that `+` leaves unmerged on one face. */
  predicate Unmerged(p: int, q: int) {
    (p == 1 && q == 0) || (p == 2 && (q == 1 || q == 3)) || (p == 3 && (q == 0 || q == 2))
  }

  /**
   * Adding two turns of one face, `j` then `k` quarter turns: the result is the
   * single turn by `j + k` quarters, except that `X' + X'` gives `X`, and that
   * `X + ""`, `X2 + X`, `X2 + X'`, `X' + ""` and `X' + X2` stay unmerged.
   */
  lemma CombineSameFace(f: char, j: int, k: int)
    requires IsFace(f)
    ensures var a, b, p, q := FromTurn(f, j), FromTurn(f, k), j % MaxRotations, k % MaxRotations;
      Combine(a, b) ==
        if p == 3 && q == 3 then One(FromTurn(f, 1))
        else if Unmerged(p, q) then Pair(a, b)
        else One(FromTurn(f, j + k))
  {
    var p, q := j % MaxRotations, k % MaxRotations;
    assert (j + k) % MaxRotations == (p + q) % MaxRotations;
    DoubleTable(f);
    if p != 0 { FromTurnDecode(f, j); }
    if q != 0 { FromTurnDecode(f, k); }
  }

  /** Turns of two different faces never merge. */
  lemma CombineOtherFaces(f: char, g: char, j: int, k: int)
    requires IsFace(f) && IsFace(g) && f != g
    requires j % MaxRotations != 0 && k % MaxRotations != 0
    ensures Combine(FromTurn(f, j), FromTurn(g, k)) == Pair(FromTurn(f, j), FromTurn(g, k))
  {
    FromTurnDecode(f, j);
    FromTurnDecode(g, k);
    DoubleTable(f);
  }

  /** Merging is order-sensitive: `X + X2` is `X'`, while `X2 + X` stays a pair. */
  lemma CombineOrderSensitive(f: char)
    requires IsFace(f)
    ensures Combine(FromTurn(f, 1), FromTurn(f, 2)) == One(FromTurn(f, 3))
    ensures Combine(FromTurn(f, 2), FromTurn(f, 1)) == Pair(FromTurn(f, 2), FromTurn(f, 1))
  {
    CombineSameFace(f, 1, 2);
    CombineSameFace(f, 2, 1);
  }

  /** `base` is idempotent on every string, and keeps the neutral move. */
  lemma BaseIdempotent(m: Move)
    ensures Base(Base(m)) == Base(m)
    ensures Base(Neutral) == Neutral
  {
  }

  /** `affected_by` does not depend on the order of its operands. */
  lemma AffectedBySymmetric(a: Move, b: Move)
    ensures AffectedBy(a, b) == AffectedBy(b, a)
  {
    assert {Base(a), Base(b)} == {Base(b), Base(a)};
  }

  /** Two turns of one face, or of faces on different axes, affect each other. */
  lemma AffectedBySameOrCrossAxis(f: char, g: char, j: int, k: int)
    requires IsFace(f) && IsFace(g) && (f == g || Axis(f) != Axis(g))
    requires j % MaxRotations != 0 && k % MaxRotations != 0
    ensures AffectedBy(FromTurn(f, j), FromTurn(g, k))
  {
    FromTurnDecode(f, j);
    FromTurnDecode(g, k);
  }
}
